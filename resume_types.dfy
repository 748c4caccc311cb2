/**
 * The resume record of src/types/resume.ts: identity fields, links, a
 * summary, the typed entry lists and the ordered section descriptors that
 * decide what is rendered and in which order.
 */
module ResumeTypes {

  datatype Option<T> = None | Some(value: T)

  /** One entry of `data.sections`: which kind of content, its display title
      and whether it is shown. */
  datatype SectionConfig = SectionConfig(id: string, title: string, isVisible: bool)

  /** `label` is a reserved word in Dafny, hence `linkLabel`. */
  datatype LinkEntry = LinkEntry(id: string, url: string, linkLabel: string)

  /** Skill groups carry no id in the record type. */
  datatype SkillGroup = SkillGroup(category: string, skills: string)

  datatype ExperienceEntry = ExperienceEntry(
    id: string, company: string, position: string, location: string, year: string,
    highlights: seq<string>)

  /** `liveLinkLabel` is read by both renderers but is not declared by the
      record type; it is optional here. */
  datatype ProjectEntry = ProjectEntry(
    id: string, title: string, subtitle: string, techStack: string, liveLink: string,
    liveLinkLabel: Option<string>, highlights: seq<string>)

  datatype CertificationEntry = CertificationEntry(id: string, name: string, issuer: string, year: string)

  datatype EducationEntry = EducationEntry(
    id: string, school: string, degree: string, major: string, year: string, result: string)

  datatype FreelanceEntry = FreelanceEntry(
    id: string, project: string, role: string, duration: string, highlights: seq<string>)

  datatype OtherEntry = OtherEntry(id: string, title: string, description: string)

  datatype ResumeData = ResumeData(
    fullName: string,
    email: string,
    phone: string,
    location: string,
    links: seq<LinkEntry>,
    summary: string,
    technicalSkills: seq<SkillGroup>,
    experiences: seq<ExperienceEntry>,
    projects: seq<ProjectEntry>,
    certifications: seq<CertificationEntry>,
    education: seq<EducationEntry>,
    freelance: seq<FreelanceEntry>,
    others: seq<OtherEntry>,
    sections: seq<SectionConfig>)

  /** The eight section ids both renderers switch on. */
  datatype SectionKind =
    | Summary | Experiences | TechnicalSkills | Projects
    | Freelance | Certifications | Education | Others

  function KindId(k: SectionKind): string {
    match k
    case Summary => "summary"
    case Experiences => "experiences"
    case TechnicalSkills => "technicalSkills"
    case Projects => "projects"
    case Freelance => "freelance"
    case Certifications => "certifications"
    case Education => "education"
    case Others => "others"
  }

  /** The `switch (section.id)` of the renderers: any other id falls through
      to `default` and is treated as unknown. */
  function KindOf(id: string): (r: Option<SectionKind>)
    ensures r.Some? ==> KindId(r.value) == id
  {
    if id == "summary" then Some(Summary)
    else if id == "experiences" then Some(Experiences)
    else if id == "technicalSkills" then Some(TechnicalSkills)
    else if id == "projects" then Some(Projects)
    else if id == "freelance" then Some(Freelance)
    else if id == "certifications" then Some(Certifications)
    else if id == "education" then Some(Education)
    else if id == "others" then Some(Others)
    else None
  }

  /** Every kind is recognised from its own id, so the switch has no
      unreachable case and no two kinds share an id. */
  lemma KindIdRoundTrip(k: SectionKind)
    ensures KindOf(KindId(k)) == Some(k)
  {
  }

  /** The data test each case applies before rendering anything: a truthy
      summary, or a non-empty list. */
  predicate HasContent(data: ResumeData, k: SectionKind) {
    match k
    case Summary => data.summary != ""
    case Experiences => |data.experiences| > 0
    case TechnicalSkills => |data.technicalSkills| > 0
    case Projects => |data.projects| > 0
    case Freelance => |data.freelance| > 0
    case Certifications => |data.certifications| > 0
    case Education => |data.education| > 0
    case Others => |data.others| > 0
  }
}
