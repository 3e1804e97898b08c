/** The projects section: a case-insensitive technology filter over the
    catalogue, an optional limit on how many cards show, the "View All" link,
    and the detail modal, which locks page scrolling while it is open. */
module Projects {
  import opened Common
  import opened Types
  import opened Catalogue
  import Dom

  /** The filter value that selects the whole catalogue. */
  const AllFilter := "all"

  /** A technology entry matches the filter when both lower-case to the same
      string. */
  predicate TechMatches(tech: string, filter: string) {
    Lower(tech) == Lower(filter)
  }

  /** `project.tech.some(...)`: true exactly when some entry matches. */
  function SomeTechMatches(techs: seq<string>, filter: string): (r: bool)
    ensures r <==> exists i :: 0 <= i < |techs| && TechMatches(techs[i], filter)
  {
    if techs == [] then false
    else if TechMatches(techs[0], filter) then true
    else
      var rest := SomeTechMatches(techs[1..], filter);
      assert forall i :: 1 <= i < |techs| ==> techs[i] == techs[1..][i - 1];
      rest
  }

  /** `a` keeps some of the elements of `b`, in their order in `b`. */
  predicate IsSubsequence<T(==)>(a: seq<T>, b: seq<T>)
    decreases |b|
  {
    if a == [] then true
    else if b == [] then false
    else if a[0] == b[0] then IsSubsequence(a[1..], b[1..])
    else IsSubsequence(a, b[1..])
  }

  /** Every sequence is a subsequence of itself. */
  lemma {:induction false} SubsequenceOfItself<T>(s: seq<T>)
    ensures IsSubsequence(s, s)
    decreases |s|
  {
    if s != [] {
      SubsequenceOfItself(s[1..]);
    }
  }

  /** `PROJECTS.filter(...)` over any list of projects. */
  function KeepMatching(ps: seq<Project>, filter: string): (r: seq<Project>)
    ensures |r| <= |ps|
  {
    if ps == [] then []
    else (if SomeTechMatches(ps[0].tech, filter) then [ps[0]] else []) + KeepMatching(ps[1..], filter)
  }

  /** The kept projects are exactly those with a matching technology, in
      their original order. */
  lemma {:induction false} KeepMatchingSpec(ps: seq<Project>, filter: string)
    ensures IsSubsequence(KeepMatching(ps, filter), ps)
    ensures forall i :: 0 <= i < |KeepMatching(ps, filter)| ==> SomeTechMatches(KeepMatching(ps, filter)[i].tech, filter)
    ensures forall p :: p in KeepMatching(ps, filter) <==> p in ps && SomeTechMatches(p.tech, filter)
    decreases |ps|
  {
    if ps != [] {
      var r := KeepMatching(ps, filter);
      var rest := KeepMatching(ps[1..], filter);
      KeepMatchingSpec(ps[1..], filter);
      assert forall p :: p in ps <==> p == ps[0] || p in ps[1..];
      if SomeTechMatches(ps[0].tech, filter) {
        assert r == [ps[0]] + rest;
        assert r[1..] == rest;
      } else {
        assert r == rest;
        assert rest != [] ==> rest[0] != ps[0];
      }
    }
  }

  /** The filter keeps every copy of a matching record and no copy of any
      other: each record occurs in the result as often as in the input when
      it matches, and not at all otherwise. */
  lemma {:induction false} KeepMatchingCounts(ps: seq<Project>, filter: string)
    ensures forall p ::
              multiset(KeepMatching(ps, filter))[p] == if SomeTechMatches(p.tech, filter) then multiset(ps)[p] else 0
    decreases |ps|
  {
    if ps != [] {
      KeepMatchingCounts(ps[1..], filter);
      assert ps == [ps[0]] + ps[1..];
    }
  }

  /** `filteredProjects`. */
  function FilteredProjects(filter: string): (r: seq<Project>)
    ensures |r| <= |PROJECTS|
  {
    if filter == AllFilter then PROJECTS else KeepMatching(PROJECTS, filter)
  }

  /** The exact value "all" selects the whole catalogue in order; any other
      value keeps exactly the projects with a technology equal to it ignoring
      case, in catalogue order. */
  lemma FilteredProjectsSpec(filter: string)
    ensures filter == AllFilter ==> FilteredProjects(filter) == PROJECTS
    ensures IsSubsequence(FilteredProjects(filter), PROJECTS)
    ensures filter != AllFilter ==>
      forall p :: p in FilteredProjects(filter) <==> p in PROJECTS && SomeTechMatches(p.tech, filter)
  {
    SubsequenceOfItself(PROJECTS);
    KeepMatchingSpec(PROJECTS, filter);
  }

  /** JavaScript truthiness of the optional `limit` prop. */
  predicate LimitSet(limit: Option<int>) {
    limit.Some? && limit.value != 0
  }

  /** The end index `slice(0, limit)` uses on a list of length `n`. A
      non-negative limit keeps at most `limit` elements, and fewer only when
      the list runs out; a negative limit drops `-limit` elements from the
      end, or all of them when the list is shorter. */
  function SliceEnd(n: nat, limit: int): (r: nat)
    ensures r <= n
    ensures limit >= 0 ==> r <= limit && (r < limit ==> r == n)
    ensures limit < 0 ==> n - r <= -limit && (n - r < -limit ==> r == 0)
  {
    if limit < 0 then (if n + limit >= 0 then n + limit else 0)
    else if limit <= n then limit else n
  }

  /** `displayedProjects`: a prefix of the filtered list, the whole list when
      no limit is set. */
  function DisplayedProjects(filtered: seq<Project>, limit: Option<int>): (r: seq<Project>)
    ensures |r| <= |filtered| && r == filtered[..|r|]
    ensures !LimitSet(limit) ==> r == filtered
    ensures LimitSet(limit) ==> |r| == SliceEnd(|filtered|, limit.value)
  {
    if LimitSet(limit) then filtered[..SliceEnd(|filtered|, limit.value)] else filtered
  }

  /** The "View All" link shows when a limit is set and the displayed list
      has reached it. */
  predicate ShowViewAll(limit: Option<int>, displayed: seq<Project>) {
    LimitSet(limit) && |displayed| >= limit.value
  }

  /** The empty-state message replaces the grid when nothing is displayed. */
  predicate ShowsNoProjectsMessage(displayed: seq<Project>) {
    |displayed| == 0
  }

  /** Displayed count <= filtered count <= catalogue count. */
  lemma DisplayCounts(filter: string, limit: Option<int>)
    ensures var filtered := FilteredProjects(filter);
      |DisplayedProjects(filtered, limit)| <= |filtered| <= |PROJECTS|
  {
  }

  /** A positive limit keeps the first `min(limit, n)` projects and a
      negative one drops that many from the end; no limit and a zero limit
      keep the list whole. */
  lemma LimitKeepsPrefix(filtered: seq<Project>, limit: Option<int>)
    ensures LimitSet(limit) && limit.value > 0 ==>
      DisplayedProjects(filtered, limit) == filtered[..if limit.value <= |filtered| then limit.value else |filtered|]
    ensures LimitSet(limit) && limit.value < 0 ==>
      DisplayedProjects(filtered, limit) == filtered[..if |filtered| + limit.value >= 0 then |filtered| + limit.value else 0]
    ensures !LimitSet(limit) ==> DisplayedProjects(filtered, limit) == filtered
  {
  }

  /** With a positive limit, "View All" shows exactly when the filter found at
      least `limit` projects; a negative limit always shows it; no limit and
      a zero limit never do. */
  lemma ViewAllRule(filtered: seq<Project>, limit: Option<int>)
    ensures LimitSet(limit) && limit.value > 0 ==>
      (ShowViewAll(limit, DisplayedProjects(filtered, limit)) <==> |filtered| >= limit.value)
    ensures LimitSet(limit) && limit.value < 0 ==> ShowViewAll(limit, DisplayedProjects(filtered, limit))
    ensures !LimitSet(limit) ==> !ShowViewAll(limit, DisplayedProjects(filtered, limit))
  {
  }

  /** The match ignores the case of the filter: two filters other than "all"
      that differ only in letter case select the same projects. */
  lemma {:induction false} KeepMatchingIgnoresCase(ps: seq<Project>, f1: string, f2: string)
    requires SameIgnoringCase(f1, f2)
    ensures KeepMatching(ps, f1) == KeepMatching(ps, f2)
    decreases |ps|
  {
    LowerEqualIffSameIgnoringCase(f1, f2);
    if ps != [] {
      KeepMatchingIgnoresCase(ps[1..], f1, f2);
      assert forall t :: TechMatches(t, f1) == TechMatches(t, f2);
      assert SomeTechMatches(ps[0].tech, f1) == SomeTechMatches(ps[0].tech, f2);
    }
  }

  lemma FilterIgnoresCase(f1: string, f2: string)
    requires f1 != AllFilter && f2 != AllFilter && SameIgnoringCase(f1, f2)
    ensures FilteredProjects(f1) == FilteredProjects(f2)
  {
    KeepMatchingIgnoresCase(PROJECTS, f1, f2);
  }

  /** An entry whose length or first letter differs from the filter's
      cannot match it. */
  predicate ClearlyDifferent(tech: string, filter: string) {
    |tech| != |filter| || (tech != [] && LowerChar(tech[0]) != LowerChar(filter[0]))
  }

  lemma NoneMatch(techs: seq<string>, filter: string)
    requires forall j :: 0 <= j < |techs| ==> ClearlyDifferent(techs[j], filter)
    ensures !SomeTechMatches(techs, filter)
  {
    forall j | 0 <= j < |techs|
      ensures !TechMatches(techs[j], filter)
    {
      if |techs[j]| == |filter| && techs[j] != [] {
        assert Lower(techs[j])[0] != Lower(filter)[0];
      }
    }
  }

  /** One step of the filter. */
  lemma KeepMatchingStep(ps: seq<Project>, filter: string)
    requires ps != []
    ensures KeepMatching(ps, filter) ==
      (if SomeTechMatches(ps[0].tech, filter) then [ps[0]] else []) + KeepMatching(ps[1..], filter)
  {
  }

  /** The "React" filter button on the catalogue selects projects 1, 3 and 4. */
  lemma FilterReact()
    ensures FilteredProjects("react") == [PROJECTS[0], PROJECTS[2], PROJECTS[3]]
  {
    var ps := PROJECTS;
    assert TechMatches("React", "react") by {
      assert Lower("React")[0] == LowerChar('R');
    }
    assert SomeTechMatches(ps[0].tech, "react") by { assert ps[0].tech[0] == "React"; }
    NoneMatch(ps[1].tech, "react");
    assert SomeTechMatches(ps[2].tech, "react") by { assert ps[2].tech[0] == "React"; }
    assert SomeTechMatches(ps[3].tech, "react") by { assert ps[3].tech[0] == "React"; }
    KeepMatchingStep(ps, "react");
    KeepMatchingStep(ps[1..], "react");
    KeepMatchingStep(ps[2..], "react");
    KeepMatchingStep(ps[3..], "react");
    assert ps[1..][1..] == ps[2..] && ps[2..][1..] == ps[3..] && ps[3..][1..] == [];
  }

  lemma TypescriptEntries()
    ensures SomeTechMatches(PROJECTS[0].tech, "typescript")
    ensures SomeTechMatches(PROJECTS[1].tech, "typescript")
    ensures !SomeTechMatches(PROJECTS[2].tech, "typescript")
    ensures !SomeTechMatches(PROJECTS[3].tech, "typescript")
  {
    assert TechMatches("TypeScript", "typescript") by {
      assert Lower("TypeScript")[0] == LowerChar('T');
      assert Lower("TypeScript")[4] == LowerChar('S');
    }
    assert PROJECTS[0].tech[1] == "TypeScript" && PROJECTS[1].tech[1] == "TypeScript";
    NoneMatch(PROJECTS[2].tech, "typescript");
    NoneMatch(PROJECTS[3].tech, "typescript");
  }

  /** The "TypeScript" filter button selects projects 1 and 2. */
  lemma FilterTypescript()
    ensures FilteredProjects("typescript") == [PROJECTS[0], PROJECTS[1]]
  {
    var ps := PROJECTS;
    TypescriptEntries();
    KeepMatchingStep(ps, "typescript");
    KeepMatchingStep(ps[1..], "typescript");
    KeepMatchingStep(ps[2..], "typescript");
    KeepMatchingStep(ps[3..], "typescript");
    assert ps[1..][1..] == ps[2..] && ps[2..][1..] == ps[3..] && ps[3..][1..] == [];
  }

  lemma UnmatchedEntries(f: string)
    requires f == "next.js" || f == "web3"
    ensures forall i :: 0 <= i < |PROJECTS| ==> !SomeTechMatches(PROJECTS[i].tech, f)
  {
    NoneMatch(PROJECTS[0].tech, f);
    NoneMatch(PROJECTS[1].tech, f);
    NoneMatch(PROJECTS[2].tech, f);
    NoneMatch(PROJECTS[3].tech, f);
  }

  /** A filter that no project matches selects nothing. */
  lemma {:induction false} KeepNone(ps: seq<Project>, f: string)
    requires forall i :: 0 <= i < |ps| ==> !SomeTechMatches(ps[i].tech, f)
    ensures KeepMatching(ps, f) == []
    decreases |ps|
  {
    if ps != [] {
      KeepNone(ps[1..], f);
    }
  }

  /** The "Next.js" and "Web3" buttons select nothing: the only Next.js
      entry reads "Next.js 15" and no project lists "Web3". The grid then
      gives way to the empty-state message. */
  lemma FilterEmpty()
    ensures FilteredProjects("next.js") == []
    ensures FilteredProjects("web3") == []
    ensures ShowsNoProjectsMessage(DisplayedProjects(FilteredProjects("web3"), None))
  {
    UnmatchedEntries("next.js");
    KeepNone(PROJECTS, "next.js");
    UnmatchedEntries("web3");
    KeepNone(PROJECTS, "web3");
  }

  /** The home page passes `limit={4}` with the filters hidden: all four
      projects show, and so does "View All". */
  lemma HomePageShowsAll()
    ensures DisplayedProjects(FilteredProjects(AllFilter), Some(4)) == PROJECTS
    ensures ShowViewAll(Some(4), DisplayedProjects(FilteredProjects(AllFilter), Some(4)))
  {
    assert PROJECTS[..4] == PROJECTS;
  }

  /** The section's state: the selected filter and the project shown in the
      modal, over the page whose body scrolling the modal locks. */
  class ProjectsView {
    var selectedFilter: string
    var selectedProject: Option<Project>
    const limit: Option<int>
    const page: Dom.Page

    /** While the modal is open the page does not scroll. */
    ghost predicate ModalLocksScroll()
      reads this, page
    {
      selectedProject.Some? ==> page.bodyOverflow == "hidden"
    }

    constructor (page: Dom.Page, limit: Option<int>)
      ensures selectedFilter == AllFilter && selectedProject == None
      ensures this.page == page && this.limit == limit
      ensures ModalLocksScroll()
    {
      selectedFilter := AllFilter;
      selectedProject := None;
      this.limit := limit;
      this.page := page;
    }

    /** The cards on screen. */
    function Displayed(): seq<Project>
      reads this
    {
      DisplayedProjects(FilteredProjects(selectedFilter), limit)
    }

    /** `handleProjectClick`: open the modal on the project and lock scrolling. */
    method HandleProjectClick(p: Project)
      modifies this, page
      ensures selectedProject == Some(p) && page.bodyOverflow == "hidden"
      ensures selectedFilter == old(selectedFilter)
      ensures page.htmlClasses == old(page.htmlClasses) && page.bodyClasses == old(page.bodyClasses)
      ensures page.localStorage == old(page.localStorage)
      ensures ModalLocksScroll()
    {
      selectedProject := Some(p);
      page.bodyOverflow := "hidden";
    }

    /** `closeModal`: close the modal and unlock scrolling. */
    method CloseModal()
      modifies this, page
      ensures selectedProject == None && page.bodyOverflow == "unset"
      ensures selectedFilter == old(selectedFilter)
      ensures page.htmlClasses == old(page.htmlClasses) && page.bodyClasses == old(page.bodyClasses)
      ensures page.localStorage == old(page.localStorage)
      ensures ModalLocksScroll()
    {
      selectedProject := None;
      page.bodyOverflow := "unset";
    }

    /** `handleFilterChange`: only the filter changes; an open modal stays
        open and the page is untouched. */
    method HandleFilterChange(value: string)
      modifies this
      ensures selectedFilter == value && selectedProject == old(selectedProject)
      ensures Displayed() == DisplayedProjects(FilteredProjects(value), limit)
      ensures ModalLocksScroll() == old(ModalLocksScroll())
    {
      selectedFilter := value;
    }
  }
}
