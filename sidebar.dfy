/**
 * The application sidebar: a constant navigation table, filtered by the signed-in
 * user's role, with the entry for the current path marked active.
 */
module Sidebar {
  import opened Wrappers
  import opened Builtins
  import Auth

  datatype NavItem = NavItem(title: string, href: string, roles: seq<string>)

  const Inicio := NavItem("Inicio", "/dashboard", ["ADMIN", "TUTOR", "CHECKER", "STUDENT"])
  const Usuarios := NavItem("Usuarios", "/usuarios", ["ADMIN"])
  const Estudiantes := NavItem("Estudiantes", "/estudiantes", ["ADMIN", "TUTOR", "CHECKER"])
  const Tutores := NavItem("Tutores", "/tutores", ["ADMIN", "CHECKER"])
  const Tutorias := NavItem("Tutorías", "/tutorias", ["ADMIN", "TUTOR", "CHECKER", "STUDENT"])
  const Cronogramas := NavItem("Cronogramas", "/cronograma", ["ADMIN"])
  const Reportes := NavItem("Reportes", "/reportes", ["ADMIN", "CHECKER"])

  /** The navigation table, in display order. */
  const NavItems: seq<NavItem> := [Inicio, Usuarios, Estudiantes, Tutores, Tutorias, Cronogramas, Reportes]

  /** The roles the table mentions. */
  const KnownRoles: set<string> := {"ADMIN", "TUTOR", "CHECKER", "STUDENT"}

  /** `user && item.roles.includes(user.role)`. */
  predicate Shows(user: Option<Auth.User>, item: NavItem) {
    user.Some? && user.value.role in item.roles
  }

  /** The test the sidebar's `filter` applies for a user. */
  function ShownTo(user: Option<Auth.User>): NavItem -> bool {
    item => Shows(user, item)
  }

  /** The items the sidebar lists for a user. */
  function VisibleItems(user: Option<Auth.User>): (r: seq<NavItem>)
    ensures |r| <= |NavItems|
  {
    Filter(ShownTo(user), NavItems)
  }

  /** An entry is highlighted when the current path is its target. */
  predicate IsActive(pathname: string, item: NavItem) {
    pathname == item.href
  }

  // ---------------------------------------------------------------------------
  // Properties
  // ---------------------------------------------------------------------------

  /** Signed out, the sidebar lists nothing. */
  lemma NoUserNoItems()
    ensures VisibleItems(None) == []
  {
    FilterNoneKept(ShownTo(None), NavItems);
  }

  lemma {:induction false} FilterNoneKept<T>(p: T -> bool, s: seq<T>)
    requires forall x :: x in s ==> !p(x)
    ensures Filter(p, s) == []
  {
    if s != [] {
      FilterNoneKept(p, s[1..]);
    }
  }

  /** An entry is listed iff it is in the table and the user's role is one of its roles. */
  lemma VisibleIff(user: Option<Auth.User>, item: NavItem)
    ensures item in VisibleItems(user) <==> item in NavItems && user.Some? && user.value.role in item.roles
  {
    FilterMembership(ShownTo(user), NavItems, item);
  }

  /** Listed entries keep the table's order. */
  lemma VisibleKeepsOrder(user: Option<Auth.User>)
    ensures IsSubsequence(VisibleItems(user), NavItems)
  {
    FilterIsSubsequence(ShownTo(user), NavItems);
  }

  function Keep(role: string, item: NavItem): seq<NavItem> {
    if role in item.roles then [item] else []
  }

  lemma FilterShowsCons(u: Auth.User, x: NavItem, rest: seq<NavItem>)
    ensures Filter(ShownTo(Some(u)), [x] + rest)
            == Keep(u.role, x) + Filter(ShownTo(Some(u)), rest)
  {
    assert ([x] + rest)[0] == x;
    assert ([x] + rest)[1..] == rest;
  }

  /** The listed entries for a signed-in user, entry by entry of the table. */
  lemma VisibleForRole(u: Auth.User)
    ensures VisibleItems(Some(u)) ==
      Keep(u.role, Inicio) + (Keep(u.role, Usuarios) + (Keep(u.role, Estudiantes) + (Keep(u.role, Tutores)
      + (Keep(u.role, Tutorias) + (Keep(u.role, Cronogramas) + Keep(u.role, Reportes))))))
  {
    var p, r := ShownTo(Some(u)), u.role;
    var s6 := [Reportes];
    var s5 := [Cronogramas] + s6;
    var s4 := [Tutorias] + s5;
    var s3 := [Tutores] + s4;
    var s2 := [Estudiantes] + s3;
    var s1 := [Usuarios] + s2;
    assert NavItems == [Inicio] + s1;
    FilterShowsCons(u, Reportes, []);
    assert [Reportes] + [] == s6;
    var f6 := Filter(p, s6);
    assert f6 == Keep(r, Reportes);
    FilterShowsCons(u, Cronogramas, s6);
    var f5 := Filter(p, s5);
    FilterShowsCons(u, Tutorias, s5);
    var f4 := Filter(p, s4);
    FilterShowsCons(u, Tutores, s4);
    var f3 := Filter(p, s3);
    FilterShowsCons(u, Estudiantes, s3);
    var f2 := Filter(p, s2);
    FilterShowsCons(u, Usuarios, s2);
    var f1 := Filter(p, s1);
    FilterShowsCons(u, Inicio, s1);
  }

  /** ADMIN sees the whole table. */
  lemma AdminSeesAll(u: Auth.User)
    requires u.role == "ADMIN"
    ensures VisibleItems(Some(u)) == NavItems
  {
    VisibleForRole(u);
  }

  /** STUDENT sees Inicio and Tutorías. */
  lemma StudentItems(u: Auth.User)
    requires u.role == "STUDENT"
    ensures VisibleItems(Some(u)) == [Inicio, Tutorias]
  {
    VisibleForRole(u);
  }

  /** TUTOR sees Inicio, Estudiantes and Tutorías. */
  lemma TutorItems(u: Auth.User)
    requires u.role == "TUTOR"
    ensures VisibleItems(Some(u)) == [Inicio, Estudiantes, Tutorias]
  {
    VisibleForRole(u);
  }

  /** CHECKER sees Inicio, Estudiantes, Tutores, Tutorías and Reportes. */
  lemma CheckerItems(u: Auth.User)
    requires u.role == "CHECKER"
    ensures VisibleItems(Some(u)) == [Inicio, Estudiantes, Tutores, Tutorias, Reportes]
  {
    VisibleForRole(u);
  }

  /** A role the table does not mention sees nothing. */
  lemma UnknownRoleSeesNothing(u: Auth.User)
    requires u.role !in KnownRoles
    ensures VisibleItems(Some(u)) == []
  {
    VisibleForRole(u);
  }

  /** The table's targets are pairwise distinct. */
  lemma HrefsDistinct()
    ensures forall i, j :: 0 <= i < j < |NavItems| ==> NavItems[i].href != NavItems[j].href
  {
  }

  /** At most one listed entry is active, whatever the path. */
  lemma AtMostOneActive(user: Option<Auth.User>, pathname: string, a: NavItem, b: NavItem)
    requires a in VisibleItems(user) && b in VisibleItems(user)
    requires IsActive(pathname, a) && IsActive(pathname, b)
    ensures a == b
  {
    VisibleIff(user, a);
    VisibleIff(user, b);
    HrefsDistinct();
  }
}
