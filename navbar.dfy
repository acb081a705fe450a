/** The navigation bar's role-dependent rules: the role it shows menus for,
    where it redirects a signed-in user who is on another role's pages,
    where the logo leads, and which links it offers. The role comes from
    the identity provider's public metadata and may be missing. */
module Navbar {
  import opened Common

  /** `role || "CLIENT"`: the role the menu and the logo use. */
  function MenuRole(metaRole: Option<string>): (r: string)
    ensures r != ""
    ensures metaRole.None? || metaRole.value == "" ==> r == "CLIENT"
    ensures metaRole.Some? && metaRole.value != "" ==> r == metaRole.value
  {
    if Filled(metaRole) then metaRole.value else "CLIENT"
  }

  /** The redirect the navbar's effect issues once the user is loaded. It
      reads the raw metadata role, so a missing role never redirects. The
      path tests are plain prefix tests. */
  function Redirect(isLoaded: bool, hasUser: bool, metaRole: Option<string>, path: string): (r: Option<string>)
    ensures r.Some? ==> isLoaded && hasUser && metaRole.Some?
    ensures r == Some("/admin/dashboard") <==>
      isLoaded && hasUser && metaRole == Some("ADMIN") && !StartsWith(path, "/admin")
    ensures r == Some("/partner/dashboard") <==>
      isLoaded && hasUser && metaRole == Some("PARTNER") && !StartsWith(path, "/partner")
    ensures r == Some("/dashboard") <==>
      isLoaded && hasUser && metaRole == Some("CLIENT")
      && (StartsWith(path, "/admin") || StartsWith(path, "/partner"))
  {
    if !(isLoaded && hasUser) then None
    else if metaRole == Some("ADMIN") && !StartsWith(path, "/admin") then Some("/admin/dashboard")
    else if metaRole == Some("PARTNER") && !StartsWith(path, "/partner") then Some("/partner/dashboard")
    else if metaRole == Some("CLIENT") && (StartsWith(path, "/admin") || StartsWith(path, "/partner")) then Some("/dashboard")
    else None
  }

  /** A redirect target never itself triggers a redirect for the same role,
      so the navbar cannot bounce between pages. */
  lemma RedirectIdempotent(isLoaded: bool, hasUser: bool, metaRole: Option<string>, path: string)
    requires Redirect(isLoaded, hasUser, metaRole, path).Some?
    ensures Redirect(isLoaded, hasUser, metaRole, Redirect(isLoaded, hasUser, metaRole, path).value) == None
  {
    var target := Redirect(isLoaded, hasUser, metaRole, path).value;
    if metaRole == Some("CLIENT") {
      assert target == "/dashboard";
      assert !StartsWith(target, "/admin") && !StartsWith(target, "/partner") by {
        assert target[1] == 'd';
      }
    }
  }

  /** The path test is a prefix test: "/administrator" counts as an admin
      page, so an ADMIN there is not redirected and a CLIENT is. */
  lemma PrefixNotSegment()
    ensures Redirect(true, true, Some("ADMIN"), "/administrator") == None
    ensures Redirect(true, true, Some("CLIENT"), "/administrator") == Some("/dashboard")
  {
    assert StartsWith("/administrator", "/admin");
  }

  /** Where the logo leads. `userRole` is the navbar's role state: None
      until the effect has run, then MenuRole of the metadata role. */
  function LogoTarget(isSignedIn: bool, userRole: Option<string>): (r: string)
    ensures !isSignedIn ==> r == "/"
    ensures isSignedIn && userRole == Some("ADMIN") ==> r == "/admin/dashboard"
    ensures isSignedIn && userRole == Some("PARTNER") ==> r == "/partner/dashboard"
    ensures isSignedIn && userRole != Some("ADMIN") && userRole != Some("PARTNER") ==> r == "/dashboard"
  {
    if !isSignedIn then "/"
    else if userRole == Some("ADMIN") then "/admin/dashboard"
    else if userRole == Some("PARTNER") then "/partner/dashboard"
    else "/dashboard"
  }

  /** The hrefs of the links `renderNavLinks` shows. */
  function NavLinks(isLoaded: bool, isSignedIn: bool, userRole: Option<string>): (r: seq<string>)
    ensures !isLoaded ==> r == []
    ensures isLoaded && !isSignedIn ==> r == ["/sign-in", "/sign-up"]
    ensures isLoaded && isSignedIn ==> |r| == (if userRole == Some("ADMIN") then 6 else 5) && r[|r| - 1] == "/profile"
    ensures isLoaded && isSignedIn ==> r[0] == LogoTarget(true, userRole)
  {
    if !isLoaded then []
    else if !isSignedIn then ["/sign-in", "/sign-up"]
    else if userRole == Some("ADMIN") then
      ["/admin/dashboard", "/admin/partners", "/admin/plans", "/admin/users", "/admin/finances", "/profile"]
    else if userRole == Some("PARTNER") then
      ["/partner/dashboard", "/partner/services", "/partner/appointments", "/partner/finances", "/profile"]
    else
      ["/dashboard", "/salons", "/appointments", "/plans", "/profile"]
  }

  /** A signed-in user without a metadata role gets the client menu and the
      client logo target, and no redirect. */
  lemma MissingRoleIsClient(path: string)
    ensures LogoTarget(true, Some(MenuRole(None))) == "/dashboard"
    ensures NavLinks(true, true, Some(MenuRole(None))) == NavLinks(true, true, Some("CLIENT"))
    ensures Redirect(true, true, None, path) == None
  {
  }

  /** Every link a signed-in CLIENT is shown, the profile included, lies
      outside "/admin" and "/partner", so following it never redirects. */
  lemma ClientLinksStayHome(i: nat)
    requires i < |NavLinks(true, true, Some("CLIENT"))|
    ensures Redirect(true, true, Some("CLIENT"), NavLinks(true, true, Some("CLIENT"))[i]) == None
  {
    var link := NavLinks(true, true, Some("CLIENT"))[i];
    assert !StartsWith(link, "/admin") by {
      assert link[1] != 'a' || link[2] != "/admin"[2];
    }
    assert !StartsWith(link, "/partner") by {
      assert link[1] != 'p' || link[2] != "/partner"[2];
    }
  }

  /** Every link a signed-in ADMIN or PARTNER is shown except the profile
      lies under that role's own prefix, so following it never redirects. */
  lemma RoleLinksStayHome(role: string, i: nat)
    requires role == "ADMIN" || role == "PARTNER"
    requires i + 1 < |NavLinks(true, true, Some(role))|
    ensures Redirect(true, true, Some(role), NavLinks(true, true, Some(role))[i]) == None
  {
    var links := NavLinks(true, true, Some(role));
    var prefix := if role == "ADMIN" then "/admin" else "/partner";
    assert StartsWith(links[i], prefix) by {
      assert links[i][..|prefix|] == prefix;
    }
  }
}
