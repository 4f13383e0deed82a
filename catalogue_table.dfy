/**
 * A representative part of the catalogue's table, and what the handler
 * answers on it.
 */
module CatalogueTable {
  import opened Wrappers
  import opened Catalogue

  function I(id: string, title: string, subtitle: string, duration: string, level: string): Interview {
    Interview(id, title, Some(subtitle), duration, level)
  }

  /** The software category (interviews.ts lines 7-29), in full. */
  const Software: Group := [
    ("frontend", [
      I("1", "Software Engineering", "New Grad E3: Technical interview #1", "20m", "Medium"),
      I("9", "Front-end 101", "Review UI optimization and JS techniques", "30m", "Medium")]),
    ("backend", [
      I("2", "Stacks vs Queues", "Learn the FIFO and LIFO flows", "5m", "Medium"),
      I("6", "Processes vs Threads", "Discuss these core OS concepts", "5m", "Easy"),
      I("3", "Hash Tables", "Master the magic of key-to-index storage", "5m", "Medium"),
      I("4", "MVC Models", "Explain this core design architecture", "5m", "Medium"),
      I("5", "REST API 101", "Web APIs using HTTP methods", "5m", "Easy"),
      I("7", "Low-Level Design", "Analyze components and optimization ideas", "30m", "Difficult"),
      I("8", "DevOps Fundamentals", "Talk about CI/CD, Docker, and cloud tools", "35m", "Difficult"),
      I("f3", "LIFO & FIFO", "Inventory accounting flows", "5m", "Medium")]),
    ("fullstack", [
      I("12", "JavaScript Mastery", "Review JS concepts and front-end skills", "30m", "Medium"),
      I("15", "Coding Concepts Basics", "Explore arrays, trees, graphs, algorithms", "30m", "Medium"),
      I("10", "Testing & Automation", "Explore unit testing and automation tools", "30m", "Medium"),
      I("11", "SQL & Database Talk", "Discuss SQL queries and optimization", "30m", "Medium")])
  ]

  /** The writing category (lines 146-160), in full. */
  const Writing: Group := [
    ("editor", [
      I("w1", "Content Strategy", "Building an editorial calendar", "15m", "Easy"),
      I("w3", "Content Strategy Discussion", "Discuss a content strategy plan", "20m", "Easy")]),
    ("content", [
      I("w2", "Copywriting Essentials", "Headlines, CTAs, and tone", "10m", "Medium"),
      I("w4", "Press Release Practice", "Draft a press release on a topic", "30m", "Medium"),
      I("w5", "Social Media Strategy", "Outline a growth campaign strategy", "20m", "Easy"),
      I("w6", "Grant Writing Discussion", "Discuss key elements of a grant", "20m", "Medium"),
      I("w7", "Screenwriting Pitch", "Pitch a screenplay idea", "30m", "Difficult"),
      I("w8", "Copywriting Exercise", "Pitch a product in 2 minutes", "20m", "Medium"),
      I("w9", "Blog Writing Scenario", "Outline a blog post structure", "15m", "Medium")])
  ]

  /** The representative table: two of the categories, each with all its roles. */
  const Table: Entries<Group> := [("software", Software), ("writing", Writing)]

  lemma TableHasFallback()
    ensures HasFallback(Table)
    ensures Lookup(Table, "software") == Some(Software)
  {
    assert Table[0].0 == "software";
  }

  /** A software request is answered from the software group. */
  lemma SoftwareRequest()
    ensures HasFallback(Table)
    ensures GroupOf(Table, One("software")) == Software
  {
    TableHasFallback();
    NormalizeSoftware();
  }

  /** The software group's role keys, in order: "frontend" is a key and "Frontend" is not. */
  lemma SoftwareRoles()
    ensures Lookup(Software, "frontend") == Some(Software[0].1)
    ensures !HasKey(Software, "Frontend")
  {
    assert |Software| == 3;
    assert Software[0].0 == "frontend" && Software[1].0 == "backend" && Software[2].0 == "fullstack";
  }

  /** On the table: the role is matched exactly, so "Frontend" is not the key "frontend" and every software role is returned. */
  lemma RoleNotNormalized()
    ensures HasFallback(Table)
    ensures Handler(Table, One("software"), One("frontend")).body == Software[0].1
    ensures Handler(Table, One("software"), One("Frontend")).body == Flatten(Software)
  {
    SoftwareRequest();
    SoftwareRoles();
  }
}
