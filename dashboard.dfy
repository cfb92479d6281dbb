/**
 * The dashboard: five counts fetched together, the stat cards chosen by the
 * signed-in user's role, and the role's quick links.
 */
module Dashboard {
  import opened Wrappers
  import opened Builtins
  import opened Json
  import opened Effects
  import Api
  import Auth
  import Sidebar

  /** The page's counts; each is absent until a fetch succeeds. */
  datatype StatsData = StatsData(users: Option<int>, students: Option<int>, tutors: Option<int>,
                                 tutorias: Option<int>, cronogramas: Option<int>)

  const NoStats := StatsData(None, None, None, None, None)

  /** `list.length` on a fetched value: a count for arrays and strings, nothing
      for other values, and a throw (`None`) for `null`. */
  function LengthOf(j: Json): (r: Option<Option<int>>)
    ensures r.None? <==> j.JNull?
    ensures j.JArr? ==> r == Some(Some(|j.items|))
  {
    match j
    case JNull => None
    case JArr(items) => Some(Some(|items|))
    case JStr(s) => Some(Some(|s|))
    case _ => Some(None)
  }

  // ---------------------------------------------------------------------------
  // Stat cards
  // ---------------------------------------------------------------------------

  /** `count ?? "—"`. */
  datatype CardValue = Count(n: int) | Dash

  function ValueOf(count: Option<int>): (v: CardValue)
    ensures count.Some? ==> v == Count(count.value)
    ensures count.None? ==> v == Dash
  {
    if count.Some? then Count(count.value) else Dash
  }

  /** The text a card shows. */
  function ValueText(v: CardValue): string {
    match v
    case Count(n) => IntToString(n)
    case Dash => "—"
  }

  datatype Card = Card(title: string, value: CardValue, description: string)

  /** `getStatsForRole()`. */
  function StatsForRole(user: Option<Auth.User>, d: StatsData): seq<Card> {
    if user.None? then []
    else match user.value.role
      case "ADMIN" =>
        [Card("Total Usuarios", ValueOf(d.users), "Usuarios activos en el sistema"),
         Card("Estudiantes", ValueOf(d.students), "Estudiantes registrados"),
         Card("Tutorías", ValueOf(d.tutorias), "Sesiones registradas"),
         Card("Cronogramas", ValueOf(d.cronogramas), "Cronogramas activos")]
      case "TUTOR" =>
        [Card("Tutorías", ValueOf(d.tutorias), "Sesiones asignadas"),
         Card("Estudiantes", ValueOf(d.students), "Estudiantes registrados")]
      case "STUDENT" =>
        [Card("Tutorías", ValueOf(d.tutorias), "Sesiones disponibles")]
      case _ => []
  }

  /** Which count each card of a role shows, in display order. */
  function Values(cards: seq<Card>): seq<CardValue> {
    seq(|cards|, i requires 0 <= i < |cards| => cards[i].value)
  }

  lemma AdminCards(u: Auth.User, d: StatsData)
    requires u.role == "ADMIN"
    ensures var cards := StatsForRole(Some(u), d);
            |cards| == 4
            && Values(cards) == [ValueOf(d.users), ValueOf(d.students), ValueOf(d.tutorias), ValueOf(d.cronogramas)]
  {
  }

  lemma TutorCards(u: Auth.User, d: StatsData)
    requires u.role == "TUTOR"
    ensures Values(StatsForRole(Some(u), d)) == [ValueOf(d.tutorias), ValueOf(d.students)]
  {
  }

  lemma StudentCards(u: Auth.User, d: StatsData)
    requires u.role == "STUDENT"
    ensures Values(StatsForRole(Some(u), d)) == [ValueOf(d.tutorias)]
  {
  }

  /** CHECKER, any other role, and no user at all get no cards. */
  lemma OtherRolesNoCards(user: Option<Auth.User>, d: StatsData)
    requires user.None? || user.value.role !in {"ADMIN", "TUTOR", "STUDENT"}
    ensures StatsForRole(user, d) == []
  {
  }

  /** Every card shows the users, students, tutorias or cronogramas count: the
      tutor count is fetched but no role is shown it. */
  lemma CardsShowFetchedCounts(user: Option<Auth.User>, d: StatsData)
    ensures forall c :: c in StatsForRole(user, d) ==> c.value == ValueOf(d.users) || c.value == ValueOf(d.students)
                                                       || c.value == ValueOf(d.tutorias) || c.value == ValueOf(d.cronogramas)
  {
  }

  /** A count and the dash never read the same. */
  lemma ValueTextTellsCountFromDash(n: int)
    ensures ValueText(Count(n)) != ValueText(Dash)
  {
    var t := IntToString(n);
    if n < 0 {
      assert t[0] == '-';
    } else {
      assert IsDigit(t[0]);
    }
  }

  /** Distinct counts read differently. */
  lemma ValueTextInjective(a: CardValue, b: CardValue)
    requires ValueText(a) == ValueText(b)
    ensures a == b
  {
    if a.Count? && b.Count? {
      IntToStringInjective(a.n, b.n);
    } else if a.Count? && b.Dash? {
      ValueTextTellsCountFromDash(a.n);
    } else if a.Dash? && b.Count? {
      ValueTextTellsCountFromDash(b.n);
    }
  }

  // ---------------------------------------------------------------------------
  // Quick links
  // ---------------------------------------------------------------------------

  datatype QuickLink = QuickLink(href: string, title: string, description: string)

  /** The "Acceso Rápido" links for the user's role. */
  function QuickLinks(user: Option<Auth.User>): seq<QuickLink> {
    if user.None? then []
    else match user.value.role
      case "ADMIN" =>
        [QuickLink("/usuarios", "Gestionar Usuarios", "Crear y editar usuarios"),
         QuickLink("/cronograma", "Cronogramas", "Gestionar cronogramas")]
      case "TUTOR" =>
        [QuickLink("/tutorias", "Mis Tutorías", "Ver y crear tutorías"),
         QuickLink("/estudiantes", "Mis Estudiantes", "Ver estudiantes asignados")]
      case "CHECKER" =>
        [QuickLink("/reportes", "Reportes", "Consultar reportes"),
         QuickLink("/tutorias", "Tutorías", "Ver tutorías")]
      case "STUDENT" =>
        [QuickLink("/tutorias", "Mis Tutorías", "Ver mi historial")]
      case _ => []
  }

  function Hrefs(links: seq<QuickLink>): seq<string> {
    seq(|links|, i requires 0 <= i < |links| => links[i].href)
  }

  lemma QuickLinksByRole(u: Auth.User)
    ensures u.role == "ADMIN" ==> Hrefs(QuickLinks(Some(u))) == ["/usuarios", "/cronograma"]
    ensures u.role == "TUTOR" ==> Hrefs(QuickLinks(Some(u))) == ["/tutorias", "/estudiantes"]
    ensures u.role == "CHECKER" ==> Hrefs(QuickLinks(Some(u))) == ["/reportes", "/tutorias"]
    ensures u.role == "STUDENT" ==> Hrefs(QuickLinks(Some(u))) == ["/tutorias"]
    ensures u.role !in Sidebar.KnownRoles ==> QuickLinks(Some(u)) == []
  {
  }

  /** Every quick link leads to a page the sidebar also offers that user. */
  lemma QuickLinksInSidebar(user: Option<Auth.User>, l: QuickLink)
    requires l in QuickLinks(user)
    ensures exists item :: item in Sidebar.VisibleItems(user) && item.href == l.href
  {
    var u := user.value;
    if u.role == "ADMIN" {
      Sidebar.AdminSeesAll(u);
      assert Sidebar.NavItems[1].href == "/usuarios" && Sidebar.NavItems[5].href == "/cronograma";
    } else if u.role == "TUTOR" {
      Sidebar.TutorItems(u);
      assert Sidebar.Tutorias in Sidebar.VisibleItems(user) && Sidebar.Estudiantes in Sidebar.VisibleItems(user);
    } else if u.role == "CHECKER" {
      Sidebar.CheckerItems(u);
      assert Sidebar.Tutorias in Sidebar.VisibleItems(user) && Sidebar.Reportes in Sidebar.VisibleItems(user);
    } else {
      Sidebar.StudentItems(u);
      assert Sidebar.Tutorias in Sidebar.VisibleItems(user);
    }
  }

  // ---------------------------------------------------------------------------
  // The page
  // ---------------------------------------------------------------------------

  /** A fetch that resolved to a value whose `length` can be read. */
  predicate Loaded(r: Result<Json, string>) {
    r.Ok? && !r.value.JNull?
  }

  class DashboardPage {
    const user: Option<Auth.User>
    var statsData: StatsData
    var trace: seq<Event>

    constructor (user: Option<Auth.User>)
      ensures this.user == user && statsData == NoStats && trace == []
    {
      this.user := user;
      statsData := NoStats;
      trace := [];
    }

    /** The cards as currently rendered. */
    function Stats(): seq<Card>
      reads this
    {
      StatsForRole(user, statsData)
    }

    /** `fetchStats()`: the five list calls are issued together; the counts are set
        only when all five succeed and none of the lists is `null`. */
    method FetchStats(users: Result<Json, string>, students: Result<Json, string>, tutors: Result<Json, string>,
                      tutorias: Result<Json, string>, cronogramas: Result<Json, string>)
      modifies this`statsData, this`trace
      ensures trace == old(trace) + [Called(Api.GetUsers), Called(Api.GetStudents), Called(Api.GetTutors),
                                     Called(Api.GetTutorias), Called(Api.GetCronogramas)]
      ensures if Loaded(users) && Loaded(students) && Loaded(tutors) && Loaded(tutorias) && Loaded(cronogramas)
              then statsData == StatsData(LengthOf(users.value).value, LengthOf(students.value).value,
                                          LengthOf(tutors.value).value, LengthOf(tutorias.value).value,
                                          LengthOf(cronogramas.value).value)
              else statsData == old(statsData)
    {
      trace := trace + [Called(Api.GetUsers), Called(Api.GetStudents), Called(Api.GetTutors),
                        Called(Api.GetTutorias), Called(Api.GetCronogramas)];
      if users.Err? || students.Err? || tutors.Err? || tutorias.Err? || cronogramas.Err? {
        return;
      }
      var nUsers := LengthOf(users.value);
      var nStudents := LengthOf(students.value);
      var nTutors := LengthOf(tutors.value);
      var nTutorias := LengthOf(tutorias.value);
      var nCronogramas := LengthOf(cronogramas.value);
      if nUsers.None? || nStudents.None? || nTutors.None? || nTutorias.None? || nCronogramas.None? {
        return;
      }
      statsData := StatsData(nUsers.value, nStudents.value, nTutors.value, nTutorias.value, nCronogramas.value);
    }
  }
}
