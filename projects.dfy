/** The partner's projects page: the projects that belong to the signed-in
    partner, and the form that adds a project with the next `RP-` id. */
module Projects {
  import opened Wrappers
  import opened Models
  import opened Text
  import opened Seqs

  const IdPrefix := "RP-"
  const UnknownPartner := "Unknown Partner"

  // ---------------------------------------------------------- my projects

  /** `user?.name?.toLowerCase() || ""` before lower-casing: the name, or nothing. */
  function NameOf(user: Option<User>): string {
    if user.Some? then user.value.name else ""
  }

  /** A project is the partner's when its partner is the user's name or
      contains it, ignoring case. */
  predicate Mine(p: RestorationProject, user: Option<User>) {
    (user.Some? && p.partner == user.value.name) || ContainsIgnoringCase(p.partner, NameOf(user))
  }

  /** `myProjects` */
  function MyProjects(all: seq<RestorationProject>, user: Option<User>): (r: seq<RestorationProject>)
    ensures forall p :: p in r <==> p in all && Mine(p, user)
    ensures IsSubsequence(r, all)
  {
    FilterIsSubsequence(all, (p: RestorationProject) => Mine(p, user));
    Filter(all, (p: RestorationProject) => Mine(p, user))
  }

  /** The exact-name test adds nothing: a project is mine exactly when its
      partner contains the user's name, ignoring case. */
  lemma MineIsCaseInsensitiveMatch(p: RestorationProject, user: Option<User>)
    ensures Mine(p, user) <==> ContainsIgnoringCase(p.partner, NameOf(user))
  {
    if user.Some? && p.partner == user.value.name {
      ContainsSelf(ToLower(p.partner));
    }
  }

  /** Without a signed-in user (or with an unnamed one) every project is listed. */
  lemma NoNameSeesAll(all: seq<RestorationProject>, user: Option<User>)
    requires NameOf(user) == ""
    ensures MyProjects(all, user) == all
  {
    forall k | 0 <= k < |all| ensures Mine(all[k], user) {
      EmptyQueryMatches(all[k].partner);
    }
    FilterKeepsAll(all, (p: RestorationProject) => Mine(p, user));
  }

  // ------------------------------------------------------------ the form

  /** `formData`; the target is kept as typed. */
  datatype ProjectForm = ProjectForm(name: string, location: string, targetTrees: string,
                                     startDate: string, species: string, status: ProjectStatus)

  const EmptyForm := ProjectForm("", "", "", "", "", Planning)

  /** What the browser asks of the form before it lets it submit: every
      field filled in and the target a whole number of at least 0 (the input
      has `min="0"` and no `step`). */
  predicate Submittable(f: ProjectForm) {
    && f.name != "" && f.location != "" && f.startDate != "" && f.species != ""
    && ParseNumber(f.targetTrees).Some? && ParseNumber(f.targetTrees).value >= 0.0
    && Whole(ParseNumber(f.targetTrees).value)
  }

  /** `parts.map((s) => s.trim())` */
  function TrimAll(parts: seq<string>): (r: seq<string>)
    ensures |r| == |parts| && forall i :: 0 <= i < |parts| ==> r[i] == Trim(parts[i])
  {
    seq(|parts|, i requires 0 <= i < |parts| => Trim(parts[i]))
  }

  /** `filter(Boolean)` on text */
  predicate NonEmpty(s: string) {
    s != ""
  }

  /** `species.split(",").map((s) => s.trim()).filter(Boolean)` */
  function SpeciesList(text: string): seq<string> {
    Filter(TrimAll(Split(text, ',')), NonEmpty)
  }

  /** A species name as the list keeps it: not empty, no comma, and no
      whitespace at either end. */
  predicate CleanName(s: string) {
    s != [] && ',' !in s && !IsSpace(s[0]) && !IsSpace(s[|s| - 1])
  }

  /** Every name of the list is clean. */
  lemma SpeciesAreClean(text: string)
    ensures forall s :: s in SpeciesList(text) ==> CleanName(s)
  {
    var parts := Split(text, ',');
    var trimmed := TrimAll(parts);
    forall s | s in SpeciesList(text) ensures CleanName(s) {
      var i :| 0 <= i < |trimmed| && trimmed[i] == s;
      TrimProperties(parts[i]);
    }
  }

  /** Clean names typed with commas between them come back as the same list. */
  lemma SpeciesRoundTrip(names: seq<string>)
    requires forall k :: 0 <= k < |names| ==> CleanName(names[k])
    ensures SpeciesList(Join(names, ',')) == names
  {
    if names == [] {
      EmptySpeciesList();
    } else {
      SplitJoin(names, ',');
      TrimAllClean(names);
      FilterKeepsAll(names, NonEmpty);
    }
  }

  /** Empty text gives no species. */
  lemma EmptySpeciesList()
    ensures SpeciesList("") == []
  {
    assert Split("", ',') == [""];
    assert Trim("") == "" by { TrimEmptyIffBlank(""); }
    assert TrimAll([""]) == [""];
  }

  /** Trimming clean names changes none of them. */
  lemma TrimAllClean(names: seq<string>)
    requires forall k :: 0 <= k < |names| ==> CleanName(names[k])
    ensures TrimAll(names) == names
  {
    forall k | 0 <= k < |names| ensures Trim(names[k]) == names[k] {
      TrimProperties(names[k]);
    }
  }

  /** `user?.name || "Unknown Partner"` */
  function PartnerName(user: Option<User>): (r: string)
    ensures NameOf(user) != "" ==> r == NameOf(user)
    ensures NameOf(user) == "" ==> r == UnknownPartner
  {
    if user.Some? && user.value.name != "" then user.value.name else UnknownPartner
  }

  /** `newProject`, the `count` projects before it deciding its id. */
  function NewProject(count: nat, f: ProjectForm, user: Option<User>): (p: RestorationProject)
    ensures p.id == NumberedId(IdPrefix, count + 1)
    ensures p.name == f.name && p.location == f.location && p.startDate == f.startDate
    ensures p.status == f.status
    ensures p.partner == PartnerName(user) && p.plantedTrees == 0
    ensures p.targetTrees == ParseInt(f.targetTrees)
    ensures p.species == SpeciesList(f.species)
  {
    RestorationProject(NumberedId(IdPrefix, count + 1), f.name, PartnerName(user), f.location,
                       ParseInt(f.targetTrees), 0, SpeciesList(f.species), f.startDate, f.status)
  }

  /** All projects, the form and whether the modal is open. */
  datatype Panel = Panel(projects: seq<RestorationProject>, form: ProjectForm, open: bool)

  /** `handleOpenModal`: a fresh form in an open modal. */
  function OpenStep(p: Panel): (r: Panel)
    ensures r.projects == p.projects && r.form == EmptyForm && r.open
  {
    Panel(p.projects, EmptyForm, true)
  }

  /** `handleCloseModal` */
  function CloseStep(p: Panel): (r: Panel)
    ensures r.projects == p.projects && r.form == EmptyForm && !r.open
  {
    Panel(p.projects, EmptyForm, false)
  }

  /** `handleSubmit`: append the new project, then close and reset. */
  function SubmitStep(p: Panel, user: Option<User>): Panel {
    if !Submittable(p.form) then p
    else CloseStep(p.(projects := p.projects + [NewProject(|p.projects|, p.form, user)]))
  }

  /** The ids of the list, in order. */
  function Ids(projects: seq<RestorationProject>): seq<string> {
    Map(projects, (x: RestorationProject) => x.id)
  }

  /** A submitted form is appended as one project at the end, the projects
      before it unchanged, and the form is back to its defaults. */
  lemma SubmitAppends(p: Panel, user: Option<User>)
    requires Submittable(p.form)
    ensures var after := SubmitStep(p, user);
      && |after.projects| == |p.projects| + 1
      && after.projects[..|p.projects|] == p.projects
      && after.projects[|p.projects|] == NewProject(|p.projects|, p.form, user)
      && after.form == EmptyForm && !after.open
  {
    assert SubmitStep(p, user).projects[..|p.projects|] == p.projects;
  }

  /** `parseInt` of a target the browser lets through is the number typed,
      when the text starts with a digit. */
  lemma TargetAsTyped(count: nat, f: ProjectForm, user: Option<User>)
    requires Submittable(f) && LeadingDigit(f.targetTrees)
    ensures NewProject(count, f, user).targetTrees.Some?
    ensures NewProject(count, f, user).targetTrees.value >= 0
    ensures NewProject(count, f, user).targetTrees.value as real == ParseNumber(f.targetTrees).value
  {
  }

  /** The browser also lets through a whole target written without a digit
      before the point, such as `.0`; `parseInt` makes it `NaN`. */
  lemma PointTargetIsNaN(count: nat, user: Option<User>)
    ensures var f := ProjectForm("n", "l", ".0", "s", "d", Planning);
      Submittable(f) && NewProject(count, f, user).targetTrees == None
  {
    ParseIntNeedsLeadingDigit("0");
  }

  /** A form the browser holds back changes nothing. */
  lemma UnsubmittableIgnored(p: Panel, user: Option<User>)
    requires !Submittable(p.form)
    ensures SubmitStep(p, user) == p
  {
  }

  /** The ids stay `RP-001`, `RP-002`, ... as the bundled projects start, so
      the new id is one no project has. */
  lemma SubmitKeepsIdsNumbered(p: Panel, user: Option<User>)
    requires Numbered(Ids(p.projects), IdPrefix) && Submittable(p.form)
    ensures NewProject(|p.projects|, p.form, user).id !in Ids(p.projects)
    ensures Numbered(Ids(SubmitStep(p, user).projects), IdPrefix)
  {
    var n := NewProject(|p.projects|, p.form, user);
    NextIdFresh(Ids(p.projects), IdPrefix);
    assert SubmitStep(p, user).projects == p.projects + [n];
    assert Ids(p.projects + [n]) == Ids(p.projects) + [n.id];
  }

  // ------------------------------------------------------------------ class

  class ProjectsPage {
    var projects: seq<RestorationProject>
    var form: ProjectForm
    var open: bool
    var submitting: bool

    constructor (all: seq<RestorationProject>)
      ensures projects == all && form == EmptyForm && !open && !submitting
    {
      projects := all;
      form := EmptyForm;
      open := false;
      submitting := false;
    }

    function State(): Panel
      reads this
    {
      Panel(projects, form, open)
    }

    /** `handleOpenModal` */
    method OpenModal()
      modifies this`form, this`open
      ensures State() == OpenStep(old(State()))
    {
      form := EmptyForm;
      open := true;
    }

    /** `handleCloseModal` */
    method CloseModal()
      modifies this`form, this`open
      ensures State() == CloseStep(old(State()))
    {
      open := false;
      form := EmptyForm;
    }

    /** `handleSubmit`, once the browser let the form through; `user` is what
        `useUser` holds. */
    method Submit(user: Option<User>)
      modifies this
      ensures State() == SubmitStep(old(State()), user)
      ensures Submittable(old(form)) ==> !submitting
    {
      if !Submittable(form) {
        return;
      }
      submitting := true;
      var newProject := NewProject(|projects|, form, user);
      projects := projects + [newProject];
      submitting := false;
      CloseModal();
    }
  }
}
