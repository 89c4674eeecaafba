/** The in-memory fixtures every page reads (src/data/mockData.ts): the badge table and the
    users, queries and resources, used here as concrete inputs for the scenario lemmas. */
module MockData {
  import opened Types

  const Bronze := Badge("1", "Bronze Helper", "\U{1F949}", "Earned 0-50 points", 0)
  const Silver := Badge("2", "Silver Mentor", "\U{1F948}", "Earned 51-150 points", 51)
  const Gold := Badge("3", "Gold Champion", "\U{1F947}", "Earned 151+ points", 151)
  const KnowledgeSeeker := Badge("4", "Knowledge Seeker", "\U{1F4DA}", "Asked 10+ questions", 0)
  const ResourceContributor := Badge("5", "Resource Contributor", "\U{1F4CA}", "Shared 5+ resources", 0)

  /** `badges`, indexed as the source indexes it: 0 Bronze, 1 Silver, 2 Gold, 4 Resource Contributor. */
  const BadgeTable: seq<Badge> := [Bronze, Silver, Gold, KnowledgeSeeker, ResourceContributor]

  const Alice := User("1", "Alice Johnson", "alice@college.edu", Alumni, Some("2020"), Some("Google"),
    ["React", "Node.js", "Python", "Machine Learning"], 285, [Gold, ResourceContributor])
  const Bob := User("2", "Bob Smith", "bob@college.edu", Alumni, Some("2019"), Some("Microsoft"),
    ["C#", ".NET", "Azure", "DevOps"], 192, [Gold, ResourceContributor])
  const Carol := User("3", "Carol Davis", "carol@college.edu", Student, Some("2025"), None,
    ["JavaScript", "React", "HTML", "CSS"], 45, [Bronze, KnowledgeSeeker])
  const David := User("4", "David Wilson", "david@college.edu", Alumni, Some("2021"), Some("Amazon"),
    ["Java", "Spring Boot", "AWS", "Kubernetes"], 156, [Gold])
  const Emma := User("5", "Emma Thompson", "emma@college.edu", Student, Some("2024"), None,
    ["Python", "Data Science", "SQL"], 78, [Silver, KnowledgeSeeker])

  const Users: seq<User> := [Alice, Bob, Carol, David, Emma]

  const Query1 := Query("1", "3", "What are the best practices for React state management?",
    ["React", "JavaScript", "Frontend"],
    [Answer("1", "1", "useState and useContext for small apps; Redux Toolkit or Zustand for larger ones.", 15, "2024-01-15T10:30:00Z"),
     Answer("2", "2", "React Query for server state management.", 8, "2024-01-15T14:20:00Z")],
    "2024-01-15T09:15:00Z", 23)
  const Query2 := Query("2", "5", "How to prepare for data science interviews at FAANG companies?",
    ["Data Science", "Interview", "Career"],
    [Answer("3", "1", "Statistics fundamentals, SQL, Python/R and machine learning concepts.", 12, "2024-01-16T11:45:00Z")],
    "2024-01-16T08:30:00Z", 18)
  const Query3 := Query("3", "3", "What cloud certifications are most valuable for backend developers?",
    ["AWS", "Cloud", "Backend", "Certification"],
    [Answer("4", "4", "AWS Solutions Architect Associate, then AWS Developer Associate.", 20, "2024-01-17T16:15:00Z")],
    "2024-01-17T13:20:00Z", 25)

  const Queries: seq<Query> := [Query1, Query2, Query3]

  const Resource1 := Resource("1", "1", "Complete React Interview Guide",
    "Comprehensive guide covering React concepts, hooks and common interview questions.",
    "#", "Interview Prep", 156, "2024-01-10T12:00:00Z")
  const Resource2 := Resource("2", "2", "Azure DevOps Best Practices",
    "Enterprise-level best practices for CI/CD pipelines in Azure DevOps.",
    "#", "DevOps", 89, "2024-01-12T15:30:00Z")
  const Resource3 := Resource("3", "4", "System Design Templates",
    "System design templates and architecture patterns for scalable applications.",
    "#", "System Design", 234, "2024-01-14T10:45:00Z")
  const Resource4 := Resource("4", "1", "Machine Learning Cheat Sheets",
    "Quick reference guides for popular ML algorithms and model evaluation metrics.",
    "#", "Machine Learning", 178, "2024-01-16T09:20:00Z")

  const Resources: seq<Resource> := [Resource1, Resource2, Resource3, Resource4]
}
