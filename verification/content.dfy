/**
 * The static content tables of the portfolio panel: projects, social links
 * and skills, and the panel's three sections.
 */
module Content {
  import opened Common

  /** The three top-level sections of the panel. */
  datatype Section = About | Skills | Experience

  /** The lower-case section name the code passes around (`'about'`, ...). */
  function SectionName(s: Section): string {
    match s
    case About => "about"
    case Skills => "skills"
    case Experience => "experience"
  }

  /** The label drawn in the side navigation and used in `Nav_<label>` zone names. */
  function NavLabel(s: Section): string {
    match s
    case About => "About"
    case Skills => "Skills"
    case Experience => "Experience"
  }

  /** The navigation items in drawing order. */
  const NavSections: seq<Section> := [About, Skills, Experience]

  /** An optional string field of a project record: absent, or present (possibly empty). */
  datatype Field = Missing | Present(text: string)

  /** JavaScript truthiness of an optional string field. */
  predicate Truthy(f: Field) {
    f.Present? && f.text != ""
  }

  datatype Project = Project(
    id: int,
    title: string,
    kind: string,
    technologies: seq<string>,
    image: Field,
    liveUrl: Field,
    githubUrl: Field,
    features: seq<string>)

  const Projects: seq<Project> := [
    Project(1, "Api Management", "Front-end Web App",
      ["Vue.js", "Express Gateaway", "Quasar"],
      Present("/projects/api-management.webp"), Present(""), Present(""),
      ["Centralized API Management", "Dynamic Admin Interface", "Robust Security & Optimization"]),
    Project(2, "Legal Reminder", "Full-Stack Web App",
      ["Vue.js", "Quasar", "Javascript", "laravel", "Cypress"],
      Present("/projects/legal-reminder.webp"), Present(""), Present(""),
      ["Automated Deadline Tracking", "Seamless Backend Integration", "Rigorous Quality Assurance"]),
    Project(3, "Knowledge Management System", "Full-stack Web App",
      ["React", "NextJS", "Supabase", "Express Gateaway"],
      Present("/projects/kms.webp"), Missing, Missing,
      ["Collaborative Back-End Development", "Secure API Management", "Interactive Chat Bot Interface"]),
    Project(4, "Portfolio Website", "3D Interactive Experience",
      ["Three.js", "JavaScript", "SCSS"],
      Present("/projects/portoweb.webp"),
      Present("https://fluorineheit.netlify.app/"),
      Present("https://github.com/Fluorineheit/3d-portfolio/"),
      ["Interactive 3D environments", "Dynamic Camera & UI Overlays", "Optimized for Performance & Accessibility"]),
    Project(5, "handy Helper", "UI/UX Design",
      ["Figma", "Canva"],
      Present("/projects/handy-helper.webp"),
      Present("https://drive.google.com/file/d/1RI4UnChkj3oAPXACf7XnJuakL6RKZrjJ/view"),
      Present("https://www.figma.com/file/O80pbUm4DVENAMWPuvXOye/FarhanAdikaPrastowo_Portfolio_01?type=design&node-id=286-990&mode=design&t=orwqtFDMaKC9br1C-0"),
      ["User-centric design", "Interactive prototypes", "Usability testing"])
  ]

  datatype SocialLink = SocialLink(name: string, fallback: string, url: string, color: string)

  const SocialMedia: seq<SocialLink> := [
    SocialLink("linkedin", "IN", "https://linkedin.com/in/farhan-adika-prastowo", ""),
    SocialLink("github", "GH", "https://github.com/Fluorineheit", "#e5e5e5ff"),
    SocialLink("email", "@", "mailto:farhanadika7@gmail.com", "#ea4335")
  ]

  datatype Skill = Skill(name: string, color: string)

  const SkillsTable: seq<Skill> := [
    Skill("HTML5", "#e34f26"), Skill("CSS3", "#264de4"), Skill("JavaScript", "#f0db4f"),
    Skill("Vue.js", "#42b883"), Skill("React", "#61dafb"), Skill("Tailwind", "#38bdf8"),
    Skill("Node.js", "#68a063"), Skill("PostgreSQL", "#336791"), Skill("Git", "#f1502f"),
    Skill("GitHub", "#e5e5e5ff"), Skill("Figma", "#f24e1e"), Skill("postman", "#ff6c37"),
    Skill("Cypress", "#69D3A7"), Skill("Blender", "#f5792a")
  ]

  /** `ps.find(p => p.id === id)`: the first project with that id, if any. */
  function FindProject(ps: seq<Project>, id: int): (r: Option<Project>)
    ensures r.Some? <==> exists i :: 0 <= i < |ps| && ps[i].id == id
    ensures r.Some? ==> r.value.id == id && r.value in ps
    ensures r.Some? ==> exists i :: 0 <= i < |ps| && ps[i] == r.value
                                  && forall j :: 0 <= j < i ==> ps[j].id != id
  {
    if |ps| == 0 then None
    else if ps[0].id == id then Some(ps[0])
    else
      var r := FindProject(ps[1..], id);
      assert forall i :: 1 <= i < |ps| ==> ps[i] == ps[1..][i - 1];
      r
  }

  /** The ids of the project table are exactly 1..5, in order. */
  lemma ProjectIds()
    ensures |Projects| == 5
    ensures forall i :: 0 <= i < |Projects| ==> Projects[i].id == i + 1
  {
  }

  /** With distinct ids, looking up the id of position `k` finds the project at `k`. */
  lemma {:induction false} FindProjectDistinct(ps: seq<Project>, k: int)
    requires 0 <= k < |ps|
    requires forall i, j :: 0 <= i < j < |ps| ==> ps[i].id != ps[j].id
    ensures FindProject(ps, ps[k].id) == Some(ps[k])
  {
    if k > 0 {
      FindProjectDistinct(ps[1..], k - 1);
    }
  }

  /** Looking up an id in the table finds the project at position `id - 1`, and nothing outside 1..5. */
  lemma FindProjectInTable(id: int)
    ensures 1 <= id <= 5 ==> FindProject(Projects, id) == Some(Projects[id - 1])
    ensures !(1 <= id <= 5) ==> FindProject(Projects, id) == None
  {
    ProjectIds();
    if 1 <= id <= 5 {
      FindProjectDistinct(Projects, id - 1);
    }
  }

  /** Which link fields of each project are truthy. */
  lemma ProjectLinks()
    ensures !Truthy(Projects[0].liveUrl) && !Truthy(Projects[0].githubUrl)
    ensures !Truthy(Projects[1].liveUrl) && !Truthy(Projects[1].githubUrl)
    ensures Projects[2].liveUrl == Missing && Projects[2].githubUrl == Missing
    ensures Truthy(Projects[3].liveUrl) && Truthy(Projects[3].githubUrl)
    ensures Truthy(Projects[4].liveUrl) && Truthy(Projects[4].githubUrl)
  {
  }

  /** Three social links (matching `Social_0..2`) and fourteen skills. */
  lemma TableSizes()
    ensures |SocialMedia| == 3
    ensures |SkillsTable| == 14
    ensures forall p :: p in Projects ==> |p.features| == 3
  {
  }
}
