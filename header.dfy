/** The header: its title, the active-button style, the admin-area test and the badge. */
module Header {
  import opened Domain
  import opened Notifications

  const ActiveStyle := "bg-blue-100 text-blue-600 shadow-inner"
  const InactiveStyle := "bg-white text-gray-600 hover:bg-gray-50"
  const DefaultTitle := "Dashboard Overview"

  /** isAdmin: the path starts with "/admin". */
  predicate IsAdminPath(path: string)
  {
    "/admin" <= path
  }

  /** getTitle: six known paths have their own title, every other path the default one. */
  function Title(path: string): string
  {
    if path == "/" then DefaultTitle
    else if path == "/calendar" then "Communication Calendar"
    else if path == "/notifications" then "Notifications"
    else if path == "/admin" then "Admin Dashboard"
    else if path == "/admin/companies" then "Manage Companies"
    else if path == "/admin/communication-methods" then "Communication Methods"
    else DefaultTitle
  }

  function KnownPaths(): seq<string>
  {
    ["/", "/calendar", "/notifications", "/admin", "/admin/companies", "/admin/communication-methods"]
  }

  /** getActiveClass. */
  function ActiveClass(path: string, buttonPath: string): string
  {
    if path == buttonPath then ActiveStyle else InactiveStyle
  }

  /** The badge shows when there is something to notify. */
  predicate ShowBadge(notificationCount: int)
  {
    notificationCount > 0
  }

  /** Every path outside the six known ones gets the default title; the six have six distinct titles
      except that "/" also shows the default. */
  lemma TitleRule(path: string)
    ensures path !in KnownPaths() ==> Title(path) == DefaultTitle
    ensures Title(path) != DefaultTitle ==> path in KnownPaths() && path != "/"
    ensures forall i, j :: 1 <= i < j < |KnownPaths()| ==> Title(KnownPaths()[i]) != Title(KnownPaths()[j])
  {
  }

  /** A button is styled active exactly when its path is the current one. */
  lemma ActiveClassRule(path: string, buttonPath: string)
    ensures ActiveClass(path, buttonPath) == ActiveStyle <==> path == buttonPath
  {
  }

  /** The admin area is closed under extension: any path that continues an admin path is one too. */
  lemma AdminAreaExtends(path: string, suffix: string)
    requires IsAdminPath(path)
    ensures IsAdminPath(path + suffix)
  {
    assert (path + suffix)[..|"/admin"|] == path[..|"/admin"|];
  }

  /** A path is in the admin area exactly when its first six characters are "/admin". */
  lemma AdminPathPrefix(path: string)
    ensures IsAdminPath(path) <==> |path| >= 6 && path[..6] == "/admin"
  {
  }

  /** Among the known pages, exactly the three admin pages are in the admin area. */
  lemma AdminPaths()
    ensures forall p :: p in KnownPaths() ==>
      (IsAdminPath(p) <==> p in ["/admin", "/admin/companies", "/admin/communication-methods"])
  {
    assert "/calendar"[1] != "/admin"[1];
    assert "/notifications"[1] != "/admin"[1];
  }

  /** On fresh notification lists the badge shows exactly when some company is due today or earlier. */
  lemma BadgeShowsWhenDue(cs: seq<Company>, active: map<Id, Schedule>, today: Date)
    ensures ShowBadge(|Select(cs, active, today, Overdue)| + |Select(cs, active, today, DueToday)|) <==>
      exists c :: c in cs && (NoticeOf(c, active, today) == Overdue || NoticeOf(c, active, today) == DueToday)
  {
    var o := Select(cs, active, today, Overdue);
    var d := Select(cs, active, today, DueToday);
    SelectMembership(cs, active, today, Overdue);
    SelectMembership(cs, active, today, DueToday);
    if |o| > 0 {
      assert o[0] in o;
      assert o[0] in cs && NoticeOf(o[0], active, today) == Overdue;
    } else if |d| > 0 {
      assert d[0] in d;
      assert d[0] in cs && NoticeOf(d[0], active, today) == DueToday;
    } else {
      forall c | c in cs
        ensures NoticeOf(c, active, today) != Overdue && NoticeOf(c, active, today) != DueToday
      {
        assert c !in o && c !in d;
      }
    }
  }
}
