/** The static catalogue: the project, skill and experience records the
    sections render, fixed at build time. */
module Catalogue {
  import opened Common
  import opened Types

  const PROJECTS: seq<Project> := [
    Project(1, "Rest Reminder",
      "Productivity-focused Chrome extension that reminds users to take breaks with customizable intervals and notification system.",
      ["React", "TypeScript", "Chrome Extensions API", "Tailwind CSS"],
      Some("https://github.com/alikiani/rest-reminder"), Some("https://chrome.google.com/webstore/..."),
      "/images/projects/rest-reminder.png", true),
    Project(2, "AliKiani.co Portfolio",
      "Modern portfolio website built with cutting-edge web technologies featuring dark glass UI theme and advanced animations.",
      ["Next.js 15", "TypeScript", "Tailwind v4", "Framer Motion"],
      Some("https://github.com/alikiani/portfolio"), Some("https://alikiani.co"),
      "/images/projects/portfolio.png", true),
    Project(3, "Mini Notes",
      "Minimalist note-taking PWA with offline support, markdown rendering, and local storage persistence.",
      ["React", "PWA", "localStorage", "Markdown", "Tailwind CSS"],
      Some("https://github.com/alikiani/mini-notes"), Some("https://mini-notes.alikiani.co"),
      "/images/projects/mini-notes.png", false),
    Project(4, "DApp Wallet Connect",
      "Web3 integration demo showcasing blockchain wallet connections and smart contract interactions.",
      ["React", "ethers.js", "Wagmi", "RainbowKit", "Solidity"],
      Some("https://github.com/alikiani/dapp-demo"), Some("https://dapp.alikiani.co"),
      "/images/projects/dapp.png", true)
  ]

  const SKILLS: seq<Skill> := [
    Skill("Next.js", 95, Frontend, None),
    Skill("React", 95, Frontend, None),
    Skill("TypeScript", 90, Frontend, None),
    Skill("Node.js", 85, Backend, None),
    Skill("Express.js", 85, Backend, None),
    Skill("JavaScript", 95, Frontend, None),
    Skill("Tailwind CSS", 90, Tool, None),
    Skill("MongoDB", 80, Tool, None),
    Skill("PostgreSQL", 80, Tool, None)
  ]

  const EXPERIENCES: seq<Experience> := [
    Experience(1, "TEDA Medical Engineering Company", "IT Admin & Manager", "2010", Some("2020"), false,
      ["Managed IT infrastructure and technical systems"], []),
    Experience(2, "Self-employed", "Freelance Frontend Developer", "2020", None, true,
      ["Building modern web applications for clients worldwide",
       "Specializing in React, Next.js, and TypeScript"],
      ["React", "Next.js", "TypeScript"])
  ]

  /** The project ids are 1 to 4 in catalogue order, hence pairwise distinct,
      and every project lists at least one technology. */
  lemma ProjectRecords()
    ensures |PROJECTS| == 4
    ensures forall i :: 0 <= i < |PROJECTS| ==> PROJECTS[i].id == i + 1
    ensures forall i, j :: 0 <= i < j < |PROJECTS| ==> PROJECTS[i].id != PROJECTS[j].id
    ensures forall i :: 0 <= i < |PROJECTS| ==> PROJECTS[i].tech != []
  {
  }

  /** Every skill level lies within its documented range, and no skill
      record sets an icon key. */
  lemma SkillRecords()
    ensures forall i :: 0 <= i < |SKILLS| ==> LevelDocumented(SKILLS[i])
    ensures forall i :: 0 <= i < |SKILLS| ==> SKILLS[i].icon.None?
  {
  }

  /** The current position has no end date and the past one has one. */
  lemma ExperienceRecords()
    ensures forall i :: 0 <= i < |EXPERIENCES| ==> (EXPERIENCES[i].current <==> EXPERIENCES[i].endDate.None?)
  {
  }
}
