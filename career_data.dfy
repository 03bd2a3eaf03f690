/** `CAREER_DATA`: the static table of career profiles, in declaration order
    (a Python dict keeps insertion order, and that order breaks ties). */
module CareerData {
  import opened Results

  /** One entry of the table: its key and the three values the action reads
      with `dict.get`, each of which may be missing. */
  datatype Profile = Profile(
    name: string,
    keywords: Option<seq<string>>,
    description: Option<string>,
    promptEnhancer: Option<string>)

  /** `data.get("keywords", [])` */
  function KeywordsOf(p: Profile): seq<string> {
    p.keywords.GetOr([])
  }

  function Entry(name: string, keywords: seq<string>, description: string, promptEnhancer: string): Profile {
    Profile(name, Some(keywords), Some(description), Some(promptEnhancer))
  }

  const SoftwareEngineer := Entry("software engineer",
      ["coding", "tech", "programming", "computers", "software", "development", "problem solving", "cyber security"],
      "Designs, develops, and maintains software applications, including security aspects.",
      "Explain what a software engineer does daily, including aspects of system security if relevant, and what makes it exciting for someone who likes problem-solving and technology.")

  const CyberSecurityAnalyst := Entry("cyber security analyst",
      ["cyber security", "security", "network", "data protection", "threats", "hacking", "firewall", "problem solving", "tech"],
      "Protects computer systems and networks from threats, analyzing security breaches and implementing defensive measures.",
      "Describe the critical role of a Cyber Security Analyst. What kind of challenges do they face, and why is it a vital career for someone interested in technology and protection?")

  const GraphicDesigner := Entry("graphic designer",
      ["art", "design", "visuals", "creative", "drawing", "illustration", "painting"],
      "Creates visual concepts to communicate ideas that inspire, inform, or captivate consumers.",
      "Describe the world of a graphic designer. What kind of projects do they work on, and how does a passion for art like painting translate into this career?")

  const AIEngineer := Entry("ai engineer",
      ["ai", "artificial intelligence", "machine learning", "neural networks", "automation", "algorithms"],
      "Builds AI systems that simulate human intelligence, helping automate and enhance decision-making processes.",
      "What does an AI Engineer do daily, and how can someone fascinated by intelligent systems and automation thrive in this role?")

  const RegisteredNurse := Entry("registered nurse",
      ["health", "care", "medicine", "patients", "hospital", "nursing", "empathy", "treatment"],
      "Provides direct patient care, educates individuals about health conditions, and supports patient recovery.",
      "Can you explain the daily responsibilities of a Registered Nurse and how compassion and a desire to help others make it a meaningful career?")

  const DigitalMarketingSpecialist := Entry("digital marketing specialist",
      ["marketing", "social media", "branding", "seo", "ads", "strategy", "creativity"],
      "Uses online platforms to promote products, build brand awareness, and reach target audiences effectively.",
      "Describe what it's like to be a Digital Marketing Specialist. How do creativity and strategic thinking come into play?")

  const UxUiDesigner := Entry("ux ui designer",
      ["design", "user experience", "interface", "creativity", "usability", "prototyping", "research"],
      "Designs intuitive and engaging user interfaces by understanding user behavior and creating visually appealing layouts.",
      "What is the role of a UX/UI Designer, and how does creativity meet functionality in their work?")

  const EducationalTechnologySpecialist := Entry("educational technology specialist",
      ["education", "technology", "teaching", "e-learning", "tools", "training", "innovation"],
      "Explain how an Educational Technology Specialist blends teaching and technology to improve how people learn in the digital age.",
      "Explain how an Educational Technology Specialist blends teaching and technology to improve how people learn in the digital age.")

  const FinancialAnalyst := Entry("financial analyst",
      ["finance", "numbers", "investing", "economics", "analytics", "business"],
      "Analyzes financial data to guide investment decisions and business strategies.",
      "Explain the role of a Financial Analyst and how strong analytical skills and an interest in numbers can lead to success in this field.")

  const Accountant := Entry("accountant",
      ["accounting", "numbers", "finance", "auditing", "bookkeeping", "business"],
      "Manages and interprets financial records for businesses and individuals.",
      "What does an accountant do, and why is attention to detail and an understanding of financial regulations key to this career?")

  /** The table, in declaration order. */
  const Careers: seq<Profile> := [
    SoftwareEngineer, CyberSecurityAnalyst, GraphicDesigner, AIEngineer, RegisteredNurse,
    DigitalMarketingSpecialist, UxUiDesigner, EducationalTechnologySpecialist, FinancialAnalyst, Accountant
  ]

  /** Every profile of the table has keywords, a description and a prompt
      enhancer, so the action's `dict.get` defaults never apply to it. */
  lemma CareersComplete()
    ensures |Careers| == 10
    ensures forall i :: 0 <= i < |Careers| ==>
              Careers[i].keywords.Some? && Careers[i].description.Some? && Careers[i].promptEnhancer.Some?
  {
  }
}
