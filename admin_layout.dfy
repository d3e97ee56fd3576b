/** The admin shell (app/admin/layout.tsx): the login page rendered bare,
    the page title looked up by path, and the breadcrumb trail built from
    the path's segments. */
module AdminLayout {
  import opened JsPrelude

  // ------------------------------------------------------------ path segments

  /** `s.split('/')`: the pieces between slashes, empty ones included. */
  function Split(s: string): (r: seq<string>)
    ensures |r| >= 1
  {
    if s == [] then [""]
    else
      var rest := Split(s[..|s| - 1]);
      var c := s[|s| - 1];
      if c == '/' then rest + [""]
      else rest[..|rest| - 1] + [rest[|rest| - 1] + [c]]
  }

  /** `pieces.join('/')` */
  function Join(pieces: seq<string>): string
    requires |pieces| >= 1
  {
    if |pieces| == 1 then pieces[0]
    else Join(pieces[..|pieces| - 1]) + "/" + pieces[|pieces| - 1]
  }

  /** Appending one character: a slash starts a new piece, any other
      character extends the last piece. */
  lemma SplitSnoc(s: string, c: char)
    ensures Split(s + [c]) == if c == '/' then Split(s) + [""]
      else Split(s)[..|Split(s)| - 1] + [Split(s)[|Split(s)| - 1] + [c]]
  {
    assert (s + [c])[..|s|] == s;
  }

  /** Splitting and joining again gives back the path, and no piece holds
      a slash. */
  lemma {:induction false} SplitJoin(s: string)
    ensures Join(Split(s)) == s
    ensures forall i :: 0 <= i < |Split(s)| ==> '/' !in Split(s)[i]
  {
    if s != [] {
      var init, c := s[..|s| - 1], s[|s| - 1];
      SplitJoin(init);
      assert s == init + [c];
      SplitSnoc(init, c);
      if c == '/' {
        JoinSnocEmpty(Split(init));
      } else {
        JoinExtendLast(Split(init), c);
      }
    }
  }

  /** Joining with one more, empty, piece appends a slash. */
  lemma JoinSnocEmpty(pieces: seq<string>)
    requires |pieces| >= 1
    requires forall i :: 0 <= i < |pieces| ==> '/' !in pieces[i]
    ensures Join(pieces + [""]) == Join(pieces) + "/"
    ensures forall i :: 0 <= i < |pieces + [""]| ==> '/' !in (pieces + [""])[i]
  {
    assert (pieces + [""])[..|pieces|] == pieces;
  }

  /** Joining with the last piece extended by c appends c. */
  lemma JoinExtendLast(pieces: seq<string>, c: char)
    requires |pieces| >= 1 && c != '/'
    requires forall i :: 0 <= i < |pieces| ==> '/' !in pieces[i]
    ensures Join(pieces[..|pieces| - 1] + [pieces[|pieces| - 1] + [c]]) == Join(pieces) + [c]
    ensures var r := pieces[..|pieces| - 1] + [pieces[|pieces| - 1] + [c]];
      forall i :: 0 <= i < |r| ==> '/' !in r[i]
  {
    var n := |pieces|;
    var r := pieces[..n - 1] + [pieces[n - 1] + [c]];
    assert r[..n - 1] == pieces[..n - 1];
    if n > 1 {
      assert Join(r) == Join(pieces[..n - 1]) + "/" + (pieces[n - 1] + [c]);
      assert Join(pieces) == Join(pieces[..n - 1]) + "/" + pieces[n - 1];
    }
    forall i | 0 <= i < |r|
      ensures '/' !in r[i]
    {
      if i < n - 1 {
        assert r[i] == pieces[i];
      }
    }
  }

  /** A leading slash adds one empty piece in front. */
  lemma SplitLeadingSlash(s: string)
    ensures Split("/" + s) == [""] + Split(s)
  {
    assert "/" + s == "" + "/" + s;
    SplitConcat("", s);
  }

  function IsNonEmpty(piece: string): bool
  {
    piece != ""
  }

  /** `pathname.split('/').filter(Boolean)` */
  function Segments(path: string): seq<string>
  {
    Filter(Split(path), IsNonEmpty)
  }

  lemma {:induction false} FilterDropsLeadingEmpty(pieces: seq<string>)
    ensures Filter([""] + pieces, IsNonEmpty) == Filter(pieces, IsNonEmpty)
  {
    if pieces != [] {
      var n := |pieces|;
      FilterDropsLeadingEmpty(pieces[..n - 1]);
      assert ([""] + pieces)[..n] == [""] + pieces[..n - 1];
    }
  }

  /** Every segment is non-empty and slash-free, and extra slashes, leading
      or trailing, add no segment. */
  lemma SegmentsSpec(path: string)
    ensures forall i :: 0 <= i < |Segments(path)| ==> Segments(path)[i] != "" && '/' !in Segments(path)[i]
    ensures Segments(path + "/") == Segments(path)
    ensures Segments("/" + path) == Segments(path)
  {
    SplitJoin(path);
    forall i | 0 <= i < |Segments(path)|
      ensures Segments(path)[i] != "" && '/' !in Segments(path)[i]
    {
      var x := Segments(path)[i];
      FilterMembership(Split(path), IsNonEmpty, x);
    }
    var pieces := Split(path);
    assert (path + "/")[..|path|] == path;
    assert Split(path + "/") == pieces + [""];
    assert (pieces + [""])[..|pieces|] == pieces;
    SplitLeadingSlash(path);
    FilterDropsLeadingEmpty(pieces);
  }

  // ------------------------------------------------------------ titles

  const BreadcrumbMap: map<string, string> := map[
    "/admin" := "仪表板",
    "/admin/dashboard" := "仪表板",
    "/admin/users" := "用户管理",
    "/admin/roles" := "角色管理",
    "/admin/departments" := "部门管理",
    "/admin/settings" := "系统设置"]

  /** getPageTitle: `breadcrumbMap[path] || "管理系统"`. */
  function PageTitle(path: string): string
  {
    var mapped := if path in BreadcrumbMap then BreadcrumbMap[path] else "";
    if mapped != "" then mapped else "管理系统"
  }

  /** The `||` fallback never hides a mapped title: a mapped path gets its
      title and any other path gets 管理系统; no title is empty. */
  lemma PageTitleSpec(path: string)
    ensures path in BreadcrumbMap ==> PageTitle(path) == BreadcrumbMap[path]
    ensures path !in BreadcrumbMap ==> PageTitle(path) == "管理系统"
    ensures PageTitle(path) != ""
    ensures |BreadcrumbMap| == 6
  {
    assert BreadcrumbMap.Keys == {"/admin", "/admin/dashboard", "/admin/users", "/admin/roles",
                                  "/admin/departments", "/admin/settings"};
  }

  // ------------------------------------------------------------ breadcrumbs

  datatype Crumb = Crumb(title: string, href: string, isCurrent: bool)

  /** "/" + segs[0] + "/" + segs[1] + ... : the path the first segments
      spell. */
  function PathOf(segs: seq<string>): string
  {
    if segs == [] then "" else PathOf(segs[..|segs| - 1]) + "/" + segs[|segs| - 1]
  }

  /** The path the first segments spell is a slash, then the segments
      joined by slashes. */
  lemma {:induction false} PathOfIsSlashJoin(segs: seq<string>)
    requires |segs| >= 1
    ensures PathOf(segs) == "/" + Join(segs)
  {
    if |segs| > 1 {
      PathOfIsSlashJoin(segs[..|segs| - 1]);
    }
  }

  /** The crumb for segment i of n. */
  function CrumbAt(segs: seq<string>, i: int): Crumb
    requires 0 <= i < |segs|
  {
    if i == 0 then Crumb("管理系统", "/admin", i == |segs| - 1)
    else
      var href := PathOf(segs[..i + 1]);
      Crumb(PageTitle(href), href, i == |segs| - 1)
  }

  /** The trail generateBreadcrumbs returns for a pathname. */
  function Breadcrumbs(pathname: string): seq<Crumb>
  {
    var segs := Segments(pathname);
    seq(|segs|, i requires 0 <= i < |segs| => CrumbAt(segs, i))
  }

  /** generateBreadcrumbs: one crumb per segment, extending the current
      path by one segment per step. */
  method GenerateBreadcrumbs(pathname: string) returns (crumbs: seq<Crumb>)
    ensures crumbs == Breadcrumbs(pathname)
  {
    var segments := Segments(pathname);
    crumbs := [];
    var currentPath := "";
    var i := 0;
    while i < |segments|
      invariant 0 <= i <= |segments|
      invariant currentPath == PathOf(segments[..i])
      invariant |crumbs| == i
      invariant forall k :: 0 <= k < i ==> crumbs[k] == CrumbAt(segments, k)
    {
      var segment := segments[i];
      assert segments[..i + 1][..i] == segments[..i];
      currentPath := currentPath + "/" + segment;
      if i == 0 {
        crumbs := crumbs + [Crumb("管理系统", "/admin", i == |segments| - 1)];
      } else {
        crumbs := crumbs + [Crumb(PageTitle(currentPath), currentPath, i == |segments| - 1)];
      }
      i := i + 1;
    }
  }

  /** The trail has one crumb per segment; exactly the last is current;
      the first is 管理系统 at /admin whatever the first segment is; each
      later crumb links to a slash and the segments so far joined by
      slashes, and is titled by that path. */
  lemma BreadcrumbsSpec(pathname: string)
    ensures var b := Breadcrumbs(pathname); var segs := Segments(pathname);
      && |b| == |segs|
      && (forall i :: 0 <= i < |b| ==> (b[i].isCurrent <==> i == |b| - 1))
      && (|b| > 0 ==> b[0].title == "管理系统" && b[0].href == "/admin")
      && (forall i :: 1 <= i < |b| ==>
            b[i].href == "/" + Join(segs[..i + 1]) && b[i].title == PageTitle(b[i].href))
  {
    var segs := Segments(pathname);
    forall j | 2 <= j <= |segs|
      ensures PathOf(segs[..j]) == "/" + Join(segs[..j])
    {
      PathOfIsSlashJoin(segs[..j]);
    }
  }

  /** The separator after crumb i: `!isCurrent && index < length - 1`. */
  predicate SeparatorAfter(crumbs: seq<Crumb>, i: int)
    requires 0 <= i < |crumbs|
  {
    !crumbs[i].isCurrent && i < |crumbs| - 1
  }

  /** A separator follows every crumb but the last. */
  lemma SeparatorsBetweenCrumbs(pathname: string, i: int)
    requires 0 <= i < |Breadcrumbs(pathname)|
    ensures SeparatorAfter(Breadcrumbs(pathname), i) <==> i < |Breadcrumbs(pathname)| - 1
  {
  }

  // ------------------------------------------------------------ the shell

  /** What the layout renders: the page alone, or the shell with the trail
      and the heading. */
  datatype Rendered = Bare | Shell(crumbs: seq<Crumb>, heading: string)

  function Layout(pathname: string): (r: Rendered)
    ensures r.Bare? <==> pathname == "/admin/login"
  {
    if pathname == "/admin/login" then Bare
    else Shell(Breadcrumbs(pathname), PageTitle(pathname))
  }

  /** A slash-free string is one piece. */
  lemma {:induction false} SplitSlashFree(w: string)
    requires '/' !in w
    ensures Split(w) == [w]
  {
    if w != [] {
      SplitSlashFree(w[..|w| - 1]);
      assert w[..|w| - 1] + [w[|w| - 1]] == w;
    }
  }

  /** Extending the last piece of a + b extends the last piece of b. */
  lemma ExtendLastPiece(a: seq<string>, b: seq<string>, c: char)
    requires |b| >= 1
    ensures (a + b) + [""] == a + (b + [""])
    ensures (a + b)[..|a + b| - 1] + [(a + b)[|a + b| - 1] + [c]] == a + (b[..|b| - 1] + [b[|b| - 1] + [c]])
  {
    assert (a + b)[..|a + b| - 1] == a + b[..|b| - 1];
  }

  /** Splitting at a slash splits each side separately. */
  lemma {:induction false} SplitConcat(s: string, t: string)
    ensures Split(s + "/" + t) == Split(s) + Split(t)
  {
    if t == [] {
      assert s + "/" + t == s + ['/'];
      SplitSnoc(s, '/');
    } else {
      var init := t[..|t| - 1];
      SplitConcat(s, init);
      assert t == init + [t[|t| - 1]];
      SplitConcatStep(s, init, t[|t| - 1]);
    }
  }

  lemma SplitConcatStep(s: string, init: string, c: char)
    requires Split(s + "/" + init) == Split(s) + Split(init)
    ensures Split(s + "/" + (init + [c])) == Split(s) + Split(init + [c])
  {
    var x := s + "/" + init;
    assert s + "/" + (init + [c]) == x + [c];
    SplitSnoc(x, c);
    SplitSnoc(init, c);
    ExtendLastPiece(Split(s), Split(init), c);
  }

  /** A path of two non-empty, slash-free segments: 管理系统 links to
      /admin, then the page itself is the current crumb, titled like the
      heading. */
  lemma SecondLevelPage(first: string, second: string)
    requires first != "" && '/' !in first
    requires second != "" && '/' !in second
    ensures var p := "/" + first + "/" + second;
      p != "/admin/login" ==>
        Layout(p) == Shell([Crumb("管理系统", "/admin", false), Crumb(PageTitle(p), p, true)], PageTitle(p))
  {
    var p := "/" + first + "/" + second;
    var segs := [first, second];
    SegmentsOfTwo(first, second);
    assert PathOf(segs[..2]) == p by {
      assert segs[..2] == segs;
      assert segs[..1] == [first];
      assert PathOf([first]) == "/" + first by {
        assert [first][..0] == [];
      }
    }
    var b := Breadcrumbs(p);
    assert |b| == 2;
    assert b[0] == CrumbAt(segs, 0) == Crumb("管理系统", "/admin", false);
    assert b[1] == CrumbAt(segs, 1) == Crumb(PageTitle(p), p, true);
    assert b == [Crumb("管理系统", "/admin", false), Crumb(PageTitle(p), p, true)];
  }

  lemma SegmentsOfTwo(first: string, second: string)
    requires first != "" && '/' !in first
    requires second != "" && '/' !in second
    ensures Segments("/" + first + "/" + second) == [first, second]
  {
    var p := "/" + first + "/" + second;
    var segs := [first, second];
    assert Split(p) == [""] + segs by {
      assert p == "" + "/" + (first + "/" + second);
      SplitConcat("", first + "/" + second);
      SplitConcat(first, second);
      SplitSlashFree(first);
      SplitSlashFree(second);
    }
    FilterDropsLeadingEmpty(segs);
    FilterAllPass(segs, IsNonEmpty);
  }

  /** The users page: 管理系统 links to /admin, then the current 用户管理
      crumb; the heading is 用户管理. */
  lemma UsersPageShell()
    ensures Layout("/admin/users") ==
      Shell([Crumb("管理系统", "/admin", false), Crumb("用户管理", "/admin/users", true)], "用户管理")
  {
    assert "/admin/users" == "/" + "admin" + "/" + "users";
    SecondLevelPage("admin", "users");
  }
}
