/** The project catalogue (`data/projects.ts`): the records the pages read and the three
    lookups over them. */
module Projects {
  import opened Wrappers
  import opened Seqs

  datatype Category = AiMl | FullStack | Blockchain | Tools | Experimental

  /** The category as it is spelled in the data. */
  function CategoryId(c: Category): string
  {
    match c
    case AiMl => "ai-ml"
    case FullStack => "full-stack"
    case Blockchain => "blockchain"
    case Tools => "tools"
    case Experimental => "experimental"
  }

  datatype MediaType = Image | Video

  datatype ProjectMedia = ProjectMedia(kind: MediaType, url: string, poster: Option<string>, alt: string)

  /** A project record; the prose fields (description, problem, solution, learnings) are
      not part of the model. */
  datatype Project = Project(
    id: string, title: string, tagline: string, category: Category, featured: bool,
    thumbnail: string, media: seq<ProjectMedia>, techStack: seq<string>,
    liveUrl: Option<string>, githubUrl: Option<string>, caseStudyUrl: Option<string>,
    year: string, duration: Option<string>, role: Option<string>)

  /** The filter buttons: an id and a label. */
  const ProjectCategories: seq<(string, string)> := [
    ("all", "All Projects"), ("full-stack", "Full-Stack"), ("ai-ml", "AI / ML"),
    ("tools", "Tools"), ("experimental", "Experimental")
  ]

  const AllProjects: seq<Project> := [
    Project("anti-fraud-event-system", "Anti-Fraud Event Access & Analytics System",
            "Enterprise-grade event security platform with real-time fraud detection and analytics",
            FullStack, true,
            "https://images.unsplash.com/photo-1540575467063-178a50c2df87?w=800&q=80",
            [ProjectMedia(Image, "https://images.unsplash.com/photo-1540575467063-178a50c2df87?w=1200&q=80", None, "Event Access Dashboard"),
             ProjectMedia(Image, "https://images.unsplash.com/photo-1551288049-bebda4e38f71?w=1200&q=80", None, "Real-time Analytics")],
            ["React Native", "Node.js", "Express.js", "PostgreSQL", "WebSockets", "TOTP", "Redis", "JWT"],
            None, None, None, "2024", Some("4 months"), Some("Lead Full-Stack Engineer")),
    Project("invisiomail", "Invisiomail",
            "Advanced email workflow automation with post-send content management and analytics",
            FullStack, true,
            "https://images.unsplash.com/photo-1557200134-90327ee9fafa?w=800&q=80",
            [ProjectMedia(Image, "https://images.unsplash.com/photo-1557200134-90327ee9fafa?w=1200&q=80", None, "Invisiomail Dashboard"),
             ProjectMedia(Image, "https://images.unsplash.com/photo-1563986768609-322da13575f3?w=1200&q=80", None, "Email Management Interface")],
            ["React", "TypeScript", "Node.js", "Gmail API", "OAuth 2.0", "Express.js", "PostgreSQL"],
            None, None, None, "2024", Some("3 months"), Some("Lead Full-Stack Engineer"))
  ]

  /** `getFeaturedProjects`, over a given catalogue. */
  function GetFeaturedProjects(ps: seq<Project>): (r: seq<Project>)
    ensures Selects(r, ps, (p: Project) => p.featured)
  {
    FilterSelects(ps, (p: Project) => p.featured);
    Filter(ps, (p: Project) => p.featured)
  }

  /** `getProjectsByCategory`: "all" is the whole catalogue. */
  function GetProjectsByCategory(ps: seq<Project>, category: string): (r: seq<Project>)
    ensures category == "all" ==> r == ps
    ensures category != "all" ==> Selects(r, ps, (p: Project) => CategoryId(p.category) == category)
  {
    if category == "all" then ps
    else
      FilterSelects(ps, (p: Project) => CategoryId(p.category) == category);
      Filter(ps, (p: Project) => CategoryId(p.category) == category)
  }

  /** `getProjectById`: the first project with that id. */
  function GetProjectById(ps: seq<Project>, id: string): (r: Option<Project>)
    ensures r.None? <==> forall i :: 0 <= i < |ps| ==> ps[i].id != id
    ensures r.Some? ==> exists i :: 0 <= i < |ps| && ps[i] == r.value && ps[i].id == id
                          && forall j :: 0 <= j < i ==> ps[j].id != id
  {
    Find(ps, (p: Project) => p.id == id)
  }

  /** A category no project carries selects nothing. */
  lemma UnusedCategoryIsEmpty(ps: seq<Project>, category: string)
    requires category != "all"
    requires forall i :: 0 <= i < |ps| ==> CategoryId(ps[i].category) != category
    ensures GetProjectsByCategory(ps, category) == []
  {
  }

  /** In the catalogue the ids are distinct, both projects are featured, and each id
      finds its own record. */
  lemma CatalogueFacts()
    ensures forall i, j :: 0 <= i < j < |AllProjects| ==> AllProjects[i].id != AllProjects[j].id
    ensures GetFeaturedProjects(AllProjects) == AllProjects
    ensures GetProjectById(AllProjects, "invisiomail") == Some(AllProjects[1])
  {
    FilterAll(AllProjects, (p: Project) => p.featured);
    assert AllProjects[0].id != "invisiomail";
  }
}
