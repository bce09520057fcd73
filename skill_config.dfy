/** The static configuration the skills tree is built from (js/skills-tree.js, skillsData). */
module SkillConfig {
  import opened Wrappers

  /**
   * One category: its label, an optional CSS colour, and its sub-categories
   * in display order. A record without `children` has the empty sequence.
   */
  datatype Skill = Skill(name: string, color: Option<string>, children: seq<Skill>)

  function Leaf(name: string): Skill
  {
    Skill(name, None, [])
  }

  const SkillsData: Skill :=
    Skill("Software Architecture", None, [
      Skill("DEVOPS", Some("#00f2fe"), [
        Leaf("CI/CD Pipelines"), Leaf("Kubernetes"), Leaf("Terraform"), Leaf("Cloud Native")
      ]),
      Skill("Back-end", Some("#4facfe"), [
        Leaf("Distributed Systems"), Leaf("Microservices"), Leaf("Python / Django"),
        Leaf("Event Driven Architectures")
      ]),
      Skill("AI", Some("#00ff88"), [
        Leaf("Spec-Driven Development"), Leaf("Agentic Coding"), Leaf("LLM Orchestration"),
        Leaf("AI Safety & Verification")
      ])
    ])

  /**
   * The configuration's shape: an uncoloured root with three coloured
   * categories, each holding four uncoloured leaves.
   */
  lemma SkillsDataShape()
    ensures SkillsData.name == "Software Architecture" && SkillsData.color == None
    ensures |SkillsData.children| == 3
    ensures forall i :: 0 <= i < 3 ==>
              SkillsData.children[i].color.Some? && |SkillsData.children[i].children| == 4
    ensures forall i, j :: 0 <= i < 3 && 0 <= j < 4 ==>
              SkillsData.children[i].children[j].color == None &&
              SkillsData.children[i].children[j].children == []
  {
  }
}
