/** Finding a robot by the short name it was created with (FindRobotByShortName in
    internal/harbor/client.go, robotsList in internal/harbor/harbortest/server.go). */
module RobotLookup {
  import opened Common
  import opened ShortNames
  import opened HarborServer

  /** How many robots one listing page holds. */
  const PAGE_SIZE: nat := 100

  /** Project listings show the project's robots, all others the system-level ones. */
  predicate InScope(robot: Robot, level: string, namespace: string) {
    if level == "project" then
      robot.level == "project" && robot.permissions != [] && robot.permissions[0].namespace == namespace
    else robot.level != "project"
  }

  /** The name Harbor's database holds, which the fuzzy filter is matched against. */
  function DatabaseName(robot: Robot): string {
    if robot.level == "project" && robot.permissions != []
    then robot.permissions[0].namespace + "+" + ShortName(robot.name)
    else ShortName(robot.name)
  }

  predicate Matches(robot: Robot, level: string, namespace: string, fuzzy: string) {
    InScope(robot, level, namespace) && (fuzzy == "" || Contains(DatabaseName(robot), fuzzy))
  }

  function MatchingIds(robots: map<nat, Robot>, level: string, namespace: string, fuzzy: string): set<nat> {
    set id | id in robots && Matches(robots[id], level, namespace, fuzzy)
  }

  /** A page shows matching robots only, and all of them when they fit. */
  ghost predicate IsPage(robots: map<nat, Robot>, level: string, namespace: string, fuzzy: string, page: seq<Robot>) {
    && (forall r :: r in page ==> r.id in robots && robots[r.id] == r && Matches(r, level, namespace, fuzzy))
    && (|MatchingIds(robots, level, namespace, fuzzy)| <= PAGE_SIZE ==>
          forall id :: id in MatchingIds(robots, level, namespace, fuzzy) ==> robots[id] in page)
  }

  datatype Listing = Listed(page: seq<Robot>) | ListRefused(status: nat)

  /** A query: a project's robots or the system-level ones, filtered by exact and fuzzy database name. */
  datatype Query = Query(level: string, namespace: string, exact: string, fuzzy: string)

  predicate Selected(robot: Robot, q: Query) {
    Matches(robot, q.level, q.namespace, q.fuzzy) && (q.exact == "" || DatabaseName(robot) == q.exact)
  }

  /** A project's query selects that project's robots by their qualified database names, any other query
      the system-level robots by their short ones. */
  lemma SelectedExactly(robot: Robot, q: Query)
    ensures q.level == "project" ==>
              (Selected(robot, q) <==>
                 && robot.level == "project" && robot.permissions != [] && robot.permissions[0].namespace == q.namespace
                 && var name := q.namespace + "+" + ShortName(robot.name);
                    (q.exact in {"", name} && (q.fuzzy == "" || Contains(name, q.fuzzy))))
    ensures q.level != "project" ==>
              (Selected(robot, q) <==>
                 && robot.level != "project" && q.exact in {"", ShortName(robot.name)}
                 && (q.fuzzy == "" || Contains(ShortName(robot.name), q.fuzzy)))
  {
  }

  /** The scope a robot needs robot:list in. */
  function ListTarget(q: Query): (target: Permission)
    ensures if q.level == "project" then target.kind == "project" && target.namespace == q.namespace
            else target.kind == "system"
  {
    if q.level == "project" then Permission("project", q.namespace, []) else SYSTEM_SCOPE
  }

  /** GET /robots of an authenticated caller, which visits the robots in no particular order. */
  method RobotsList(p: Principal, robots: map<nat, Robot>, projects: set<string>, q: Query) returns (answer: Listing)
    requires (forall id :: id in robots ==> robots[id].id == id) && (p.RobotPrincipal? ==> p.id in robots)
    ensures answer == ListRefused(400) <==> q.level == "project" && (q.namespace == "" || q.namespace !in projects)
    ensures answer == ListRefused(403) <==>
              && (q.level == "project" ==> q.namespace != "" && q.namespace in projects)
              && p.RobotPrincipal? && !Grants(robots[p.id].permissions, ListTarget(q), "robot", "list")
    ensures answer.Listed? || answer == ListRefused(400) || answer == ListRefused(403)
    ensures answer.Listed? ==>
              && (forall r :: r in answer.page <==> r.id in robots && robots[r.id] == r && Selected(r, q))
              && (forall i, j :: 0 <= i < j < |answer.page| ==> answer.page[i].id != answer.page[j].id)
    ensures answer.Listed? && q.exact == "" ==> IsPage(robots, q.level, q.namespace, q.fuzzy, answer.page)
  {
    if q.level == "project" && (q.namespace == "" || q.namespace !in projects) {
      return ListRefused(400);
    }
    if p.RobotPrincipal? {
      var ok := Holds(robots[p.id].permissions, ListTarget(q), "robot", "list");
      if !ok {
        return ListRefused(403);
      }
    }
    var page := Select(robots, q);
    return Listed(page);
  }

  method Select(robots: map<nat, Robot>, q: Query) returns (page: seq<Robot>)
    requires forall id :: id in robots ==> robots[id].id == id
    ensures forall r :: r in page <==> r.id in robots && robots[r.id] == r && Selected(r, q)
    ensures forall i, j :: 0 <= i < j < |page| ==> page[i].id != page[j].id
  {
    page := [];
    var left := robots.Keys;
    while left != {}
      invariant left <= robots.Keys
      invariant forall r :: r in page ==> r.id in robots && r.id !in left && robots[r.id] == r && Selected(r, q)
      invariant forall id :: id in robots && id !in left && Selected(robots[id], q) ==> robots[id] in page
      invariant forall i, j :: 0 <= i < j < |page| ==> page[i].id != page[j].id
      decreases |left|
    {
      var id :| id in left;
      left := left - {id};
      if Selected(robots[id], q) {
        page := page + [robots[id]];
      }
    }
  }

  /** The first listed robot whose short name is exactly the wanted one. */
  function FirstMatch(page: seq<Robot>, short: string): (r: Option<Robot>)
    ensures r.Some? ==> r.value in page && ShortName(r.value.name) == short
    ensures r.None? ==> forall x :: x in page ==> ShortName(x.name) != short
    decreases |page|
  {
    if page == [] then None
    else if ShortName(page[0].name) == short then Some(page[0])
    else FirstMatch(page[1..], short)
  }

  /** FindRobotByShortName, given how the project lookup and the listing go. */
  method FindRobotByShortName(level: string, short: string, project: Reply, listing: Reply, page: seq<Robot>)
    returns (status: Status, found: Option<Robot>)
    ensures status.Ok? <==> (level == "project" ==> project == Answer) && listing == Answer
    ensures status.Ok? ==> found == FirstMatch(page, short)
    ensures !status.Ok? ==> status.Err? && found.None?
    ensures level == "project" && project.Refuse? ==> status == Err(project.code)
    ensures (level == "project" ==> project == Answer) && listing.Refuse? ==> status == Err(listing.code)
  {
    if level == "project" && project != Answer {
      return Err(if project.Refuse? then project.code else Other), None;
    }
    if listing != Answer {
      return Err(if listing.Refuse? then listing.code else Other), None;
    }
    for i := 0 to |page|
      invariant FirstMatch(page[i..], short) == FirstMatch(page, short)
    {
      if ShortName(page[i].name) == short {
        return Ok, Some(page[i]);
      }
      assert page[i..][1..] == page[i + 1..];
    }
    return Ok, None;
  }

  /** Harbor's prefix lets short names be read back at this level. */
  predicate Readable(prefix: string, level: string) {
    level == "project" || prefix == "" || IsQualifier(prefix[|prefix| - 1])
  }

  /** A robot in scope has the short name exactly when it has the full name made from it. */
  lemma InScopeByName(prefix: string, robot: Robot, level: string, namespace: string, short: string)
    requires ProperlyNamed(prefix, robot) && Readable(prefix, level) && NoQualifier(short)
    requires InScope(robot, level, namespace)
    ensures ShortName(robot.name) == short <==> robot.name == FullName(prefix, level, namespace, short)
  {
    var s :| NoQualifier(s) && robot.name == NameOf(prefix, robot.level, robot.permissions, s);
    assert robot.name == FullName(prefix, level, namespace, s);
    ShortNameInvertsExactly(prefix, level, namespace, s);
    ShortNameInvertsExactly(prefix, level, namespace, short);
  }

  /** The name the filter is matched against ends in the short name. */
  lemma DatabaseNameContains(robot: Robot)
    ensures Contains(DatabaseName(robot), ShortName(robot.name))
  {
    var short := ShortName(robot.name);
    var qualified := robot.level == "project" && robot.permissions != [];
    var front := if qualified then robot.permissions[0].namespace + "+" else "";
    assert DatabaseName(robot) == front + short;
    ContainsEnd(front, short);
  }

  /** The lookup returns the robot created under the name, never one whose name merely contains it; it
      finds that robot whenever at most 100 robots match the fuzzy query, and the robot is the only one. */
  lemma LookupInvertsNaming(prefix: string, robots: map<nat, Robot>, level: string, namespace: string, short: string,
                            page: seq<Robot>)
    requires NamesOk(prefix, robots) && Readable(prefix, level) && NoQualifier(short)
    requires IsPage(robots, level, namespace, short, page)
    ensures FirstMatch(page, short).Some? ==>
              var r := FirstMatch(page, short).value;
              && r.id in robots && robots[r.id] == r && InScope(r, level, namespace)
              && r.name == FullName(prefix, level, namespace, short)
              && forall id :: id in robots && robots[id].name == FullName(prefix, level, namespace, short) ==>
                   id == r.id
    ensures |MatchingIds(robots, level, namespace, short)| <= PAGE_SIZE ==>
              (FirstMatch(page, short).Some? <==>
                exists id :: id in robots && InScope(robots[id], level, namespace)
                             && robots[id].name == FullName(prefix, level, namespace, short))
  {
    var found := FirstMatch(page, short);
    if found.Some? {
      InScopeByName(prefix, found.value, level, namespace, short);
      assert found.value.id in robots;
    }
    forall id | id in robots && InScope(robots[id], level, namespace)
                && robots[id].name == FullName(prefix, level, namespace, short)
      ensures ShortName(robots[id].name) == short && id in MatchingIds(robots, level, namespace, short)
    {
      InScopeByName(prefix, robots[id], level, namespace, short);
      DatabaseNameContains(robots[id]);
    }
  }
}
