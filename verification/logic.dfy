/**
 * The admission policy: whether the first project the vulnerability service
 * returns for an image lets the image through, and if not, why.
 */
module Logic {
  import W = Wrappers
  import Projects = OrganizationProjectsPost

  /** The five reasons a manifest request is refused. */
  datatype AdmitError = NotMonitored | CriticalVulnerability | HighVulnerability | MediumVulnerability | LowVulnerability

  /**
   * The criticality a project declares, ordered by `Ordinal`. `Critical`,
   * `High`, `Medium` and `Low` double as the four severity tiers.
   */
  datatype ProjectCriticality = Critical | High | Medium | Low | None {

    function Ordinal(): nat {
      match this
      case Critical => 4
      case High => 3
      case Medium => 2
      case Low => 1
      case None => 0
    }

    /** The derived `<` of the source's enum: comparison by discriminant. */
    predicate Below(other: ProjectCriticality) {
      Ordinal() < other.Ordinal()
    }
  }

  /** A severity tier, as opposed to the absence of a declaration. */
  predicate IsTier(t: ProjectCriticality) {
    t != None
  }

  /** The string a project's criticality list carries to declare tier `t`. */
  function Label(t: ProjectCriticality): string
    requires IsTier(t)
  {
    match t
    case Critical => "critical"
    case High => "high"
    case Medium => "medium"
    case Low => "low"
  }

  function Count(counts: Projects.IssueCounts, t: ProjectCriticality): Projects.u32
    requires IsTier(t)
  {
    match t
    case Critical => counts.critical
    case High => counts.high
    case Medium => counts.medium
    case Low => counts.low
  }

  /** The refusal that names tier `t`. */
  function Denial(t: ProjectCriticality): AdmitError
    requires IsTier(t)
  {
    match t
    case Critical => CriticalVulnerability
    case High => HighVulnerability
    case Medium => MediumVulnerability
    case Low => LowVulnerability
  }

  /**
   * The declared criticality: the highest tier whose label the list contains,
   * or `None` when it contains none of them. Other strings are ignored.
   */
  function DeclaredCriticality(criticality: seq<string>): (r: ProjectCriticality)
    ensures r == None <==> forall t | IsTier(t) :: Label(t) !in criticality
    ensures IsTier(r) ==> Label(r) in criticality
    ensures forall t | IsTier(t) && Label(t) in criticality :: t.Ordinal() <= r.Ordinal()
  {
    if Label(Critical) in criticality then Critical
    else if Label(High) in criticality then High
    else if Label(Medium) in criticality then Medium
    else if Label(Low) in criticality then Low
    else None
  }

  /** Tier `t` blocks `project`: it has issues there and has not declared that tier or a higher one. */
  predicate Violated(project: Projects.Project, t: ProjectCriticality) {
    IsTier(t)
    && Count(project.issueCountsBySeverity, t) > 0
    && DeclaredCriticality(project.attributes.criticality).Below(t)
  }

  /**
   * The admission decision. No project means `NotMonitored`; otherwise only the
   * first project counts, tiers are checked from critical down to low, and the
   * first violated tier is the reason.
   */
  function Admitted(response: Projects.Response): (r: W.Result<(), AdmitError>)
    ensures r == W.Err(NotMonitored) <==> |response.body.projects| == 0
    ensures |response.body.projects| > 0 ==>
              (r.Ok? <==> forall t :: !Violated(response.body.projects[0], t))
    ensures r.Err? && |response.body.projects| > 0 ==>
              exists t :: Violated(response.body.projects[0], t) && r.error == Denial(t)
                          && forall u | t.Below(u) :: !Violated(response.body.projects[0], u)
  {
    if |response.body.projects| == 0 then W.Err(NotMonitored)
    else
      var project := response.body.projects[0];
      if Violated(project, Critical) then W.Err(CriticalVulnerability)
      else if Violated(project, High) then W.Err(HighVulnerability)
      else if Violated(project, Medium) then W.Err(MediumVulnerability)
      else if Violated(project, Low) then W.Err(LowVulnerability)
      else W.Ok(())
  }

  /** The human-readable text of a refusal (`Display for AdmitError`). */
  function Message(e: AdmitError): (s: string)
    ensures e == NotMonitored ==> s == "Image not monitored for vulnerabilities"
    ensures e != NotMonitored ==>
              exists t | IsTier(t) :: e == Denial(t) && s == "Image exceeded vulnerability threshold " + Label(t)
  {
    match e
    case NotMonitored => "Image not monitored for vulnerabilities"
    case CriticalVulnerability =>
      assert Denial(Critical) == e;
      "Image exceeded vulnerability threshold critical"
    case HighVulnerability =>
      assert Denial(High) == e;
      "Image exceeded vulnerability threshold high"
    case MediumVulnerability =>
      assert Denial(Medium) == e;
      "Image exceeded vulnerability threshold medium"
    case LowVulnerability =>
      assert Denial(Low) == e;
      "Image exceeded vulnerability threshold low"
  }

  // ---------------------------------------------------------------------------
  // Properties of the policy

  /** `Below` is a strict total order on the five criticalities. */
  lemma BelowIsStrictTotalOrder(a: ProjectCriticality, b: ProjectCriticality, c: ProjectCriticality)
    ensures !a.Below(a)
    ensures a.Below(b) && b.Below(c) ==> a.Below(c)
    ensures a == b || a.Below(b) || b.Below(a)
  {
  }

  /** Projects after the first never influence the decision. */
  lemma OnlyFirstProjectConsulted(a: Projects.Response, b: Projects.Response)
    requires |a.body.projects| > 0 && |b.body.projects| > 0
    requires a.body.projects[0] == b.body.projects[0]
    ensures Admitted(a) == Admitted(b)
  {
  }

  /** A project without issues is admitted whatever it declares. */
  lemma NoIssuesAdmitted(response: Projects.Response)
    requires |response.body.projects| > 0
    requires response.body.projects[0].issueCountsBySeverity == Projects.IssueCounts(0, 0, 0, 0)
    ensures Admitted(response) == W.Ok(())
  {
  }

  /** Declaring "critical" accepts every tier, so such a project is always admitted. */
  lemma CriticalDeclaredAlwaysAdmitted(response: Projects.Response)
    requires |response.body.projects| > 0
    requires "critical" in response.body.projects[0].attributes.criticality
    ensures Admitted(response) == W.Ok(())
  {
  }

  /**
   * Declaring a higher criticality, or carrying fewer issues in every tier,
   * never turns an admission into a refusal.
   */
  lemma AdmissionMonotone(a: Projects.Response, b: Projects.Response)
    requires |a.body.projects| > 0 && |b.body.projects| > 0
    requires Admitted(a).Ok?
    requires DeclaredCriticality(a.body.projects[0].attributes.criticality).Ordinal()
             <= DeclaredCriticality(b.body.projects[0].attributes.criticality).Ordinal()
    requires forall t | IsTier(t) ::
               Count(b.body.projects[0].issueCountsBySeverity, t) <= Count(a.body.projects[0].issueCountsBySeverity, t)
    ensures Admitted(b).Ok?
  {
  }

  /** Each refusal has its own text, and a tier's text names the tier's label. */
  lemma MessagesDistinct(e1: AdmitError, e2: AdmitError, t: ProjectCriticality)
    requires IsTier(t)
    ensures e1 != e2 ==> Message(e1) != Message(e2)
    ensures Message(Denial(t)) == "Image exceeded vulnerability threshold " + Label(t)
  {
  }

  /** A project declaring "critical" with five critical and five high issues is admitted. */
  lemma DeclaredCriticalExample()
    ensures Admitted(Projects.Response(Projects.ResponseBody([
              Projects.Project("acme/app:latest", Projects.Attributes(["critical"]), Projects.IssueCounts(5, 0, 5, 0))])))
            == W.Ok(())
  {
  }

  /** A project declaring nothing with a single low issue is refused for that tier. */
  lemma UndeclaredLowIssueExample()
    ensures Admitted(Projects.Response(Projects.ResponseBody([
              Projects.Project("acme/app:latest", Projects.Attributes([]), Projects.IssueCounts(0, 1, 0, 0))])))
            == W.Err(LowVulnerability)
  {
  }
}
