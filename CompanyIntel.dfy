/** The company classifier of placement-app/src/utils/companyIntel.js: size
    and industry by substring matching against fixed name lists (first match
    wins), the hiring-focus table, the round mapping and their composition. */
module CompanyIntel {
  import opened Wrappers
  import opened Text
  import opened Skills

  const EnterpriseCompanies: seq<string> := [
    "amazon", "google", "microsoft", "apple", "meta", "facebook",
    "infosys", "tcs", "wipro", "cognizant", "accenture", "capgemini",
    "ibm", "oracle", "salesforce", "adobe", "intel", "nvidia",
    "deloitte", "pwc", "ey", "kpmg", "jpmorgan", "goldman sachs",
    "morgan stanley", "citigroup", "wells fargo", "bank of america"
  ]

  const MidSizeCompanies: seq<string> := [
    "zomato", "swiggy", "paytm", "razorpay", "cred", "phonepe",
    "freshworks", "zoho", "postman", "browserstack", "atlassian",
    "thoughtworks", "publicis sapient", "nagarro", "epam"
  ]

  const FinancialTokens: seq<string> := ["bank", "capital", "finance", "jpmorgan", "goldman", "morgan stanley"]
  const EcommerceTokens: seq<string> := ["amazon", "flipkart", "walmart", "ebay"]
  const FoodTokens: seq<string> := ["zomato", "swiggy", "uber", "doordash"]
  const FintechTokens: seq<string> := ["paytm", "razorpay", "stripe", "paypal", "cred", "phonepe"]
  const CloudTokens: seq<string> := ["aws", "azure", "gcp", "cloud"]
  const ConsultingTokens: seq<string> := ["deloitte", "accenture", "pwc", "ey", "kpmg"]

  const DefaultIndustry: string := "Technology Services"

  /** `tokens.some(t => text.includes(t))`, also the `||` chains of `includes`. */
  predicate AnyIncluded(text: string, tokens: seq<string>) {
    exists i :: 0 <= i < |tokens| && Contains(text, tokens[i])
  }

  /** `inferCompanySize(companyName)`. */
  function InferCompanySize(companyName: string): (size: string)
    ensures size == "Enterprise" || size == "Mid-size" || size == "Startup"
    ensures companyName == "" ==> size == "Startup"
  {
    if companyName == "" then "Startup"
    else
      var lower := Trim(ToLower(companyName));
      if AnyIncluded(lower, EnterpriseCompanies) then "Enterprise"
      else if AnyIncluded(lower, MidSizeCompanies) then "Mid-size"
      else "Startup"
  }

  /** `inferIndustry(companyName, skills)`; `skills` is accepted and unused. */
  function InferIndustry(companyName: string, skills: SkillMap): (industry: string)
    ensures industry in IndustryLabels || industry == DefaultIndustry
    ensures companyName == "" ==> industry == DefaultIndustry
  {
    if companyName == "" then DefaultIndustry
    else
      var lower := ToLower(companyName);
      if AnyIncluded(lower, FinancialTokens) then "Financial Services"
      else if AnyIncluded(lower, EcommerceTokens) then "E-commerce"
      else if AnyIncluded(lower, FoodTokens) then "Food & Delivery Tech"
      else if AnyIncluded(lower, FintechTokens) then "Fintech"
      else if AnyIncluded(lower, CloudTokens) then "Cloud & Infrastructure"
      else if AnyIncluded(lower, ConsultingTokens) then "IT Consulting"
      else DefaultIndustry
  }

  // ----- a priority table as reference definition -----

  /** A labelled group of tokens. */
  datatype Rule = Rule(name: string, tokens: seq<string>)

  const SizeRules: seq<Rule> := [Rule("Enterprise", EnterpriseCompanies), Rule("Mid-size", MidSizeCompanies)]

  const IndustryRules: seq<Rule> := [
    Rule("Financial Services", FinancialTokens),
    Rule("E-commerce", EcommerceTokens),
    Rule("Food & Delivery Tech", FoodTokens),
    Rule("Fintech", FintechTokens),
    Rule("Cloud & Infrastructure", CloudTokens),
    Rule("IT Consulting", ConsultingTokens)
  ]

  const IndustryLabels: seq<string> := [
    "Financial Services", "E-commerce", "Food & Delivery Tech",
    "Fintech", "Cloud & Infrastructure", "IT Consulting"
  ]

  /** Rule `i` is the first rule whose group occurs in the text. */
  predicate FirstRuleAt(text: string, rules: seq<Rule>, i: int) {
    && 0 <= i < |rules|
    && AnyIncluded(text, rules[i].tokens)
    && forall j :: 0 <= j < i ==> !AnyIncluded(text, rules[j].tokens)
  }

  /** The label of the first rule that matches, or `default`. */
  function FirstMatch(text: string, rules: seq<Rule>, default: string): (result: string)
    ensures forall i :: FirstRuleAt(text, rules, i) ==> result == rules[i].name
    ensures (forall i :: 0 <= i < |rules| ==> !AnyIncluded(text, rules[i].tokens)) ==> result == default
    decreases |rules|
  {
    if |rules| == 0 then default
    else if AnyIncluded(text, rules[0].tokens) then rules[0].name
    else
      var rest := FirstMatch(text, rules[1..], default);
      assert forall i :: FirstRuleAt(text, rules, i) ==> i > 0 && FirstRuleAt(text, rules[1..], i - 1);
      rest
  }

  /** Size follows the priority table: Enterprise before Mid-size, then Startup. */
  lemma InferCompanySizeByPriority(companyName: string)
    ensures InferCompanySize(companyName) ==
            if companyName == "" then "Startup"
            else FirstMatch(Trim(ToLower(companyName)), SizeRules, "Startup")
  {
    if companyName != "" {
      var lower := Trim(ToLower(companyName));
      if AnyIncluded(lower, EnterpriseCompanies) {
        assert FirstRuleAt(lower, SizeRules, 0);
      } else if AnyIncluded(lower, MidSizeCompanies) {
        assert FirstRuleAt(lower, SizeRules, 1);
      }
    }
  }

  /** Industry follows the priority table: Financial, E-commerce, Food,
      Fintech, Cloud, Consulting, then the default. */
  lemma InferIndustryByPriority(companyName: string, skills: SkillMap)
    ensures InferIndustry(companyName, skills) ==
            if companyName == "" then DefaultIndustry
            else FirstMatch(ToLower(companyName), IndustryRules, DefaultIndustry)
  {
    if companyName != "" {
      var lower := ToLower(companyName);
      var rules := IndustryRules;
      if AnyIncluded(lower, FinancialTokens) {
        assert FirstRuleAt(lower, rules, 0);
      } else if AnyIncluded(lower, EcommerceTokens) {
        assert FirstRuleAt(lower, rules, 1);
      } else if AnyIncluded(lower, FoodTokens) {
        assert FirstRuleAt(lower, rules, 2);
      } else if AnyIncluded(lower, FintechTokens) {
        assert FirstRuleAt(lower, rules, 3);
      } else if AnyIncluded(lower, CloudTokens) {
        assert FirstRuleAt(lower, rules, 4);
      } else if AnyIncluded(lower, ConsultingTokens) {
        assert FirstRuleAt(lower, rules, 5);
      } else {
        assert forall i :: 0 <= i < |rules| ==> !AnyIncluded(lower, rules[i].tokens);
      }
    }
  }

  /** The industry does not depend on the skills argument. */
  lemma InferIndustryIgnoresSkills(companyName: string, skills1: SkillMap, skills2: SkillMap)
    ensures InferIndustry(companyName, skills1) == InferIndustry(companyName, skills2)
  {
  }

  // ----- getHiringFocus -----

  datatype HiringFocus = HiringFocus(primary: string, description: string, traits: seq<string>)

  const EnterpriseFocus: HiringFocus := HiringFocus(
    "Structured DSA + Core Fundamentals",
    "Large companies emphasize algorithmic thinking, system design fundamentals, and thorough CS knowledge. Expect multiple rounds with increasing difficulty.",
    ["Strong DSA foundation", "System design basics", "CS fundamentals", "Scalability mindset"])

  const MidSizeFocus: HiringFocus := HiringFocus(
    "Balanced: DSA + Practical Skills",
    "Mid-size companies look for both problem-solving ability and hands-on experience. They value candidates who can contribute quickly.",
    ["Good DSA skills", "Practical coding", "Tech stack knowledge", "Team collaboration"])

  const StartupFocus: HiringFocus := HiringFocus(
    "Practical Problem Solving + Stack Depth",
    "Startups prioritize hands-on skills and ability to ship features quickly. They value versatility and ownership mentality.",
    ["Full-stack capability", "Quick learning", "Ownership mindset", "Practical experience"])

  /** `getHiringFocus(companySize)`: every unknown size reads as Startup. */
  function GetHiringFocus(companySize: string): (focus: HiringFocus)
    ensures |focus.traits| == 4
    ensures companySize != "Enterprise" && companySize != "Mid-size" ==> focus == StartupFocus
  {
    if companySize == "Enterprise" then EnterpriseFocus
    else if companySize == "Mid-size" then MidSizeFocus
    else StartupFocus
  }

  // ----- generateRoundMapping -----

  datatype RoundSpec = RoundSpec(round: string, title: string, description: string, why: string, duration: string)

  const RoundLabels: seq<string> := ["Round 1", "Round 2", "Round 3", "Round 4"]

  const EnterpriseRounds: seq<RoundSpec> := [
    RoundSpec("Round 1", "Online Assessment", "DSA problems + Aptitude + MCQs",
      "Filters candidates at scale. Tests fundamental problem-solving and CS knowledge.", "60-90 mins"),
    RoundSpec("Round 2", "Technical Interview I", "DSA deep dive + Core CS concepts",
      "Evaluates algorithmic thinking and ability to optimize solutions under pressure.", "45-60 mins"),
    RoundSpec("Round 3", "Technical Interview II", "System design + Project discussion",
      "Assesses architectural thinking and real-world problem-solving experience.", "45-60 mins"),
    RoundSpec("Round 4", "Managerial / HR", "Behavioral questions + Culture fit",
      "Ensures alignment with company values and team dynamics.", "30-45 mins")
  ]

  /** The Mid-size rounds as given to a profile with no DSA and no Web skill. */
  const MidSizeDefaults: seq<RoundSpec> := [
    RoundSpec("Round 1", "Coding Assessment", "Practical coding challenges",
      "Tests both algorithmic skills and ability to write production-ready code.", "60-90 mins"),
    RoundSpec("Round 2", "Technical Discussion", "Tech stack + Architecture",
      "Evaluates depth in relevant technologies and design thinking.", "45-60 mins"),
    RoundSpec("Round 3", "Team Fit + Culture", "Behavioral + Collaboration scenarios",
      "Ensures you can work effectively in a fast-paced team environment.", "30-45 mins")
  ]

  /** The Startup rounds as given to a profile with no Web skill. */
  const StartupDefaults: seq<RoundSpec> := [
    RoundSpec("Round 1", "Practical Coding", "Solve real-world coding problems",
      "Startups need people who can ship code quickly. This tests hands-on ability.", "60-120 mins"),
    RoundSpec("Round 2", "System Discussion", "Architecture + Trade-offs + Scalability",
      "Evaluates your ability to make pragmatic technical decisions with limited resources.", "45-60 mins"),
    RoundSpec("Round 3", "Culture Fit + Vision", "Ownership mindset + Learning agility",
      "Startups need self-driven individuals who thrive in ambiguity and wear multiple hats.", "30-45 mins")
  ]

  const DsaCodingDescription := "DSA problems + Practical coding"

  /** `hasDSA`: a Core CS skill mentions DSA or algorithms. */
  predicate HasDsa(skills: SkillMap)
    ensures HasDsa(skills) ==>
              exists e, k :: e in skills && e.category == "Core CS" && k in e.skills
                             && (Contains(ToLower(k), "dsa") || Contains(ToLower(k), "algorithm"))
  {
    HasSkill(skills, "Core CS")
    && (SomeIncludes(Lookup(skills, "Core CS"), "dsa") || SomeIncludes(Lookup(skills, "Core CS"), "algorithm"))
  }

  /** Two rounds that agree on everything except perhaps the description. */
  predicate SameExceptDescription(a: RoundSpec, b: RoundSpec) {
    a.round == b.round && a.title == b.title && a.why == b.why && a.duration == b.duration
  }

  /** Rounds that follow `defaults` except perhaps in their descriptions. */
  predicate FollowsDefaults(rounds: seq<RoundSpec>, defaults: seq<RoundSpec>) {
    |rounds| == |defaults| && forall i :: 0 <= i < |rounds| ==> SameExceptDescription(rounds[i], defaults[i])
  }

  /** The Mid-size rounds: the skills only pick the first two descriptions. */
  function MidSizeRounds(skills: SkillMap): (r: seq<RoundSpec>)
    ensures FollowsDefaults(r, MidSizeDefaults)
    ensures r[0].description == if HasDsa(skills) then DsaCodingDescription else MidSizeDefaults[0].description
    ensures !HasSkill(skills, "Web") ==> r[1] == MidSizeDefaults[1]
    ensures r[2] == MidSizeDefaults[2]
  {
    var d := MidSizeDefaults;
    [ d[0].(description := if HasDsa(skills) then DsaCodingDescription else d[0].description),
      d[1].(description := if HasSkill(skills, "Web") then First(skills, "Web") + " + System design" else d[1].description),
      d[2] ]
  }

  /** The Startup rounds: the skills only pick the first description. */
  function StartupRounds(skills: SkillMap): (r: seq<RoundSpec>)
    ensures FollowsDefaults(r, StartupDefaults)
    ensures !HasSkill(skills, "Web") ==> r == StartupDefaults
    ensures r[1..] == StartupDefaults[1..]
  {
    var d := StartupDefaults;
    [ d[0].(description := if HasSkill(skills, "Web")
                           then "Build a feature using " + Join(Take(Lookup(skills, "Web"), 2), ", ")
                           else d[0].description),
      d[1], d[2] ]
  }

  /** `generateRoundMapping(companySize, skills)`: four fixed rounds for
      Enterprise, three for every other size, labelled "Round 1".."Round n". */
  function GenerateRoundMapping(companySize: string, skills: SkillMap): (rounds: seq<RoundSpec>)
    ensures |rounds| == if companySize == "Enterprise" then 4 else 3
    ensures forall i :: 0 <= i < |rounds| ==> rounds[i].round == RoundLabels[i]
    ensures companySize == "Enterprise" ==> rounds == EnterpriseRounds
  {
    if companySize == "Enterprise" then EnterpriseRounds
    else if companySize == "Mid-size" then MidSizeRounds(skills)
    else StartupRounds(skills)
  }

  /** For a given size, skills only change round descriptions: labels,
      titles, reasons and durations are fixed per size. */
  lemma RoundMappingSkillsOnlyInDescriptions(companySize: string, skills1: SkillMap, skills2: SkillMap)
    ensures FollowsDefaults(GenerateRoundMapping(companySize, skills1), GenerateRoundMapping(companySize, skills2))
  {
    var r1, r2 := GenerateRoundMapping(companySize, skills1), GenerateRoundMapping(companySize, skills2);
    if companySize != "Enterprise" {
      var d := if companySize == "Mid-size" then MidSizeDefaults else StartupDefaults;
      assert FollowsDefaults(r1, d) && FollowsDefaults(r2, d);
    }
  }

  // ----- generateCompanyIntel -----

  datatype Intel = Intel(companySize: string, industry: string, hiringFocus: HiringFocus,
                         roundMapping: seq<RoundSpec>, sizeCategory: string)

  /** The headcount label lookup; `undefined` for any other key. */
  function SizeCategory(companySize: string): (headcount: Option<string>)
    ensures headcount.Some? <==> companySize == "Enterprise" || companySize == "Mid-size" || companySize == "Startup"
  {
    if companySize == "Enterprise" then Some("2000+ employees")
    else if companySize == "Mid-size" then Some("200-2000 employees")
    else if companySize == "Startup" then Some("<200 employees")
    else None
  }

  /** `generateCompanyIntel(company, role, skills)`; `role` is unused. The
      headcount lookup is always defined because the size is one of three. */
  function GenerateCompanyIntel(company: string, role: string, skills: SkillMap): (intel: Intel)
    ensures intel.companySize == InferCompanySize(company)
    ensures intel.industry == InferIndustry(company, skills)
    ensures intel.hiringFocus == GetHiringFocus(intel.companySize)
    ensures intel.roundMapping == GenerateRoundMapping(intel.companySize, skills)
    ensures |intel.roundMapping| == if intel.companySize == "Enterprise" then 4 else 3
    ensures SizeCategory(intel.companySize) == Some(intel.sizeCategory)
  {
    var companySize := InferCompanySize(company);
    Intel(companySize, InferIndustry(company, skills), GetHiringFocus(companySize),
          GenerateRoundMapping(companySize, skills), SizeCategory(companySize).value)
  }

  /** The role never changes the company intel. */
  lemma CompanyIntelIgnoresRole(company: string, role1: string, role2: string, skills: SkillMap)
    ensures GenerateCompanyIntel(company, role1, skills) == GenerateCompanyIntel(company, role2, skills)
  {
  }
}
