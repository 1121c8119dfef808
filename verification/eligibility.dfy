/**
 * Who and what the booking form offers: the technician drop-down of
 * `updateTechnicianOptions` and the service list of
 * `renderServiceCheckboxes`, with its laser-by-date rule and its grouping
 * by category.
 */
module Eligibility {
  import opened Wrappers
  import opened Seqs
  import opened Salon

  // ---------------------------------------------------------------- technicians

  /** A specialist sees only the technician record linked to their own account. */
  predicate RoleVisible(user: Option<User>, t: Technician) {
    user.Some? && user.value.role == Specialist ==> t.userId == Some(user.value.uid)
  }

  /**
   * With nothing selected everyone qualifies; otherwise the skill list must
   * be non-empty and hold every selected service id.
   */
  predicate Qualified(t: Technician, selectedIds: seq<string>) {
    |selectedIds| == 0 || (|t.skills| > 0 && forall id :: id in selectedIds ==> id in t.skills)
  }

  /** The technicians `updateTechnicianOptions` puts in the drop-down. */
  function EligibleTechnicians(techs: seq<Technician>, user: Option<User>, selectedIds: seq<string>): (r: seq<Technician>)
    ensures forall t :: t in r <==> t in techs && RoleVisible(user, t) && Qualified(t, selectedIds)
    ensures user.Some? && user.value.role == Specialist ==>
              forall t :: t in r ==> t.userId == Some(user.value.uid)
    ensures |selectedIds| > 0 ==>
              forall t :: t in r ==> forall id :: id in selectedIds ==> id in t.skills
  {
    var visible := Filter(techs, t => RoleVisible(user, t));
    Filter(visible, t => Qualified(t, selectedIds))
  }

  /** Before any service is checked, everyone the role may see is listed, in roster order. */
  lemma {:induction false} NoSelectionKeepsRoleVisible(techs: seq<Technician>, user: Option<User>)
    ensures EligibleTechnicians(techs, user, []) == Filter(techs, t => RoleVisible(user, t))
  {
    var visible := Filter(techs, t => RoleVisible(user, t));
    FilterKeepsAll(visible, t => Qualified(t, []));
  }

  /** For anyone but a specialist, no selection means the whole roster. */
  lemma {:induction false} NoSelectionShowsRoster(techs: seq<Technician>, user: Option<User>)
    requires !(user.Some? && user.value.role == Specialist)
    ensures EligibleTechnicians(techs, user, []) == techs
  {
    NoSelectionKeepsRoleVisible(techs, user);
    FilterKeepsAll(techs, t => RoleVisible(user, t));
  }

  // ---------------------------------------------------------------- services

  function AsciiLower(c: char): char {
    if 'A' <= c <= 'Z' then ((c as int) + 32) as char else c
  }

  /**
   * A laser category lower-cases to exactly "laser". Only the ASCII letters lower-case
   * to 'l', 'a', 's', 'e' or 'r', so ASCII folding decides this comparison.
   */
  predicate IsLaserCategory(category: string) {
    |category| == 5 && forall i :: 0 <= i < 5 ==> AsciiLower(category[i]) == "laser"[i]
  }

  /** Laser services are on for a date when a date is chosen and it is one of the laser days. */
  predicate LaserEnabled(date: string, laserDates: seq<string>) {
    date != "" && date in laserDates
  }

  /**
   * A laser service is skipped when laser is off for the date and a
   * signed-in non-admin is looking. Guests and admins see it.
   */
  predicate Hidden(s: Service, user: Option<User>, date: string, laserDates: seq<string>) {
    IsLaserCategory(s.category) && !LaserEnabled(date, laserDates) && IsSignedInNonAdmin(user)
  }

  /** The services `renderServiceCheckboxes` lists, in catalogue order. */
  function VisibleServices(services: seq<Service>, user: Option<User>, date: string, laserDates: seq<string>): (r: seq<Service>)
    ensures forall s :: s in r <==> s in services && !Hidden(s, user, date, laserDates)
    ensures forall s :: s in services && !IsLaserCategory(s.category) ==> s in r
    ensures !IsSignedInNonAdmin(user) || LaserEnabled(date, laserDates) ==> r == services
  {
    var r := Filter(services, s => !Hidden(s, user, date, laserDates));
    assert !IsSignedInNonAdmin(user) || LaserEnabled(date, laserDates) ==> r == services by {
      if !IsSignedInNonAdmin(user) || LaserEnabled(date, laserDates) {
        FilterKeepsAll(services, s => !Hidden(s, user, date, laserDates));
      }
    }
    r
  }

  /**
   * The heading a service is listed under: every laser service under
   * "Laser", any other under its category, "General Services" when blank.
   */
  function CategoryName(s: Service): (name: string)
    ensures IsLaserCategory(s.category) <==> name == "Laser"
    ensures !IsLaserCategory(s.category) ==> name == (if s.category == "" then "General Services" else s.category)
  {
    if IsLaserCategory(s.category) then "Laser"
    else if s.category == "" then "General Services"
    else s.category
  }

  function InCategory(name: string): Service -> bool {
    s => CategoryName(s) == name
  }

  datatype Group = Group(name: string, members: seq<Service>)

  /** The index of the group called `name`, or `|groups|`. */
  function GroupIndex(groups: seq<Group>, name: string): (k: nat)
    ensures k <= |groups|
    ensures k < |groups| ==> groups[k].name == name
    ensures k == |groups| ==> forall i :: 0 <= i < |groups| ==> groups[i].name != name
  {
    if groups == [] then 0
    else if groups[|groups| - 1].name == name then |groups| - 1
    else
      var k := GroupIndex(groups[..|groups| - 1], name);
      if k == |groups| - 1 then |groups| else k
  }

  /** The groups of a service list: every service under its heading, headings once each. */
  ghost predicate GroupsOf(groups: seq<Group>, svcs: seq<Service>) {
    DistinctNames(groups) && MembersMatch(groups, svcs) && Covers(groups, svcs)
  }

  ghost predicate DistinctNames(groups: seq<Group>) {
    forall i, j :: 0 <= i < j < |groups| ==> groups[i].name != groups[j].name
  }

  /** Each group lists exactly the services under its heading, in order, and at least one. */
  ghost predicate MembersMatch(groups: seq<Group>, svcs: seq<Service>) {
    forall i :: 0 <= i < |groups| ==>
      groups[i].members == Filter(svcs, InCategory(groups[i].name)) && |groups[i].members| > 0
  }

  ghost predicate Covers(groups: seq<Group>, svcs: seq<Service>) {
    forall s :: s in svcs ==> exists i :: 0 <= i < |groups| && groups[i].name == CategoryName(s)
  }

  /** Pushes `s` onto the group of its heading, creating the group on first use. */
  function AddToGroups(groups: seq<Group>, s: Service): seq<Group> {
    var k := GroupIndex(groups, CategoryName(s));
    if k < |groups| then groups[k := Group(groups[k].name, groups[k].members + [s])]
    else groups + [Group(CategoryName(s), [s])]
  }

  lemma {:induction false} AddToGroupsKeepsGroupsOf(groups: seq<Group>, prefix: seq<Service>, s: Service)
    requires GroupsOf(groups, prefix)
    ensures GroupsOf(AddToGroups(groups, s), prefix + [s])
  {
    AddKeepsMembers(groups, prefix, s);
    AddKeepsDistinct(groups, s);
    AddKeepsCover(groups, prefix, s);
  }

  lemma {:induction false} AddKeepsDistinct(groups: seq<Group>, s: Service)
    requires DistinctNames(groups)
    ensures DistinctNames(AddToGroups(groups, s))
  {
  }

  lemma {:induction false} AddKeepsMembers(groups: seq<Group>, prefix: seq<Service>, s: Service)
    requires DistinctNames(groups) && MembersMatch(groups, prefix) && Covers(groups, prefix)
    ensures MembersMatch(AddToGroups(groups, s), prefix + [s])
  {
    var svcs := prefix + [s];
    var name := CategoryName(s);
    var k := GroupIndex(groups, name);
    var r := AddToGroups(groups, s);
    forall i | 0 <= i < |r|
      ensures r[i].members == Filter(svcs, InCategory(r[i].name)) && |r[i].members| > 0
    {
      FilterSnoc(prefix, s, InCategory(r[i].name));
      if i == k {
        if k == |groups| {
          FilterKeepsNone(prefix, InCategory(name));
        }
      } else {
        assert r[i] == groups[i] && groups[i].name != name;
      }
    }
  }

  lemma {:induction false} AddKeepsCover(groups: seq<Group>, prefix: seq<Service>, s: Service)
    requires Covers(groups, prefix)
    ensures Covers(AddToGroups(groups, s), prefix + [s])
  {
    var k := GroupIndex(groups, CategoryName(s));
    var r := AddToGroups(groups, s);
    forall t | t in prefix + [s] ensures exists i :: 0 <= i < |r| && r[i].name == CategoryName(t) {
      if t in prefix {
        var i :| 0 <= i < |groups| && groups[i].name == CategoryName(t);
        assert r[i].name == CategoryName(t);
      } else {
        assert r[k].name == CategoryName(t);
      }
    }
  }

  /**
   * The `categories` object `renderServiceCheckboxes` builds: services are
   * pushed, in order, onto the list of their heading, a heading being
   * created on first use.
   */
  function GroupByCategory(svcs: seq<Service>): (groups: seq<Group>)
    ensures GroupsOf(groups, svcs)
  {
    if svcs == [] then []
    else
      var prefix := svcs[..|svcs| - 1];
      assert svcs == prefix + [svcs[|svcs| - 1]];
      var groups := GroupByCategory(prefix);
      AddToGroupsKeepsGroupsOf(groups, prefix, svcs[|svcs| - 1]);
      AddToGroups(groups, svcs[|svcs| - 1])
  }

  /**
   * The properties a plain JavaScript object inherits from
   * `Object.prototype`. For these `categories[name]` is already set, so the
   * grouping loop skips creating the list and calls `push` on the inherited
   * value, which throws.
   */
  const InheritedKeys: set<string> := {
    "constructor", "hasOwnProperty", "isPrototypeOf", "propertyIsEnumerable",
    "toLocaleString", "toString", "valueOf", "__proto__",
    "__defineGetter__", "__defineSetter__", "__lookupGetter__", "__lookupSetter__"
  }

  /**
   * The service menu: the visible services grouped by heading, or `None`
   * when a visible service's heading is an inherited key, in which case
   * the loop throws and the cleared list stays empty.
   */
  function ServiceMenu(services: seq<Service>, user: Option<User>, date: string, laserDates: seq<string>): (menu: Option<seq<Group>>)
    ensures menu.None? <==>
              exists s :: s in VisibleServices(services, user, date, laserDates) && CategoryName(s) in InheritedKeys
    ensures menu.Some? ==> GroupsOf(menu.value, VisibleServices(services, user, date, laserDates))
  {
    var visible := VisibleServices(services, user, date, laserDates);
    if exists i :: 0 <= i < |visible| && CategoryName(visible[i]) in InheritedKeys then None
    else Some(GroupByCategory(visible))
  }

  /**
   * A visible service filed under "constructor" (a category the add-service
   * form accepts) leaves the whole menu empty.
   */
  lemma {:induction false} InheritedCategoryBlanksMenu(services: seq<Service>, user: Option<User>, date: string,
                                    laserDates: seq<string>, s: Service)
    requires s in services && !Hidden(s, user, date, laserDates) && s.category == "constructor"
    ensures ServiceMenu(services, user, date, laserDates) == None
  {
    assert s in VisibleServices(services, user, date, laserDates);
    assert CategoryName(s) == "constructor";
  }

  /**
   * Every visible laser service sits in the "Laser" group, and no
   * non-laser service does.
   */
  lemma {:induction false} LaserGroupedTogether(services: seq<Service>, user: Option<User>, date: string, laserDates: seq<string>, s: Service)
    requires s in services && !Hidden(s, user, date, laserDates)
    ensures var menu := ServiceMenu(services, user, date, laserDates);
            menu.Some? ==> exists i :: 0 <= i < |menu.value| && menu.value[i].name == CategoryName(s) && s in menu.value[i].members
    ensures IsLaserCategory(s.category) <==> CategoryName(s) == "Laser"
  {
    var visible := VisibleServices(services, user, date, laserDates);
    var menu := ServiceMenu(services, user, date, laserDates);
    if menu.Some? {
      var groups := menu.value;
      assert s in visible;
      var i :| 0 <= i < |groups| && groups[i].name == CategoryName(s);
      assert s in Filter(visible, InCategory(groups[i].name));
    }
  }
}
