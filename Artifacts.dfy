/** The artifact generators and the readiness score of
    placement-app/src/utils/skillExtractor.js: the round checklist, the 7-day
    plan, the ten interview questions and `calculateReadinessScore`. */
module Artifacts {
  import opened Text
  import opened Skills

  /** One key of the checklist object and its task list. */
  datatype ChecklistRound = ChecklistRound(title: string, items: seq<string>)

  /** One entry of the 7-day plan. */
  datatype DayPlan = DayPlan(day: string, title: string, tasks: seq<string>)

  const RoundTitles: seq<string> := [
    "Round 1: Aptitude / Basics", "Round 2: DSA + Core CS",
    "Round 3: Tech Interview", "Round 4: Managerial / HR"
  ]

  const DayLabels: seq<string> := ["Day 1-2", "Day 3-4", "Day 5", "Day 6", "Day 7"]

  /** `isGenericProfile`: the fallback key is present. */
  predicate IsGeneric(skills: SkillMap) {
    HasSkill(skills, Other)
  }

  // ----- generateChecklist -----

  const AptitudeItems: seq<string> := [
    "Practice quantitative aptitude questions",
    "Review logical reasoning patterns",
    "Brush up verbal ability and comprehension",
    "Take online aptitude mock tests",
    "Review basic mathematics and statistics"
  ]

  const HrItems: seq<string> := [
    "Prepare your elevator pitch",
    "Practice behavioral questions (STAR method)",
    "Research company culture and values",
    "Prepare questions to ask interviewer",
    "Review your strengths and weaknesses",
    "Practice salary negotiation scenarios"
  ]

  const ReviewCoreCs := "Review core CS fundamentals"
  const LearnBasicStructures := "Learn basic data structures (arrays, strings, lists)"
  const PracticeArrays := "Practice array and string problems"
  const MasterSorting := "Master sorting and searching algorithms"
  const UnderstandComplexity := "Understand time and space complexity"
  const PracticeSql := "Practice SQL queries and normalization"
  const ReviewStructures := "Review data structures basics"
  const PracticeSimple := "Practice simple coding problems"
  const SolveTrees := "Solve tree and graph problems"
  const LearnAlgorithms := "Learn basic algorithms"
  const PracticeDp := "Practice dynamic programming questions"

  const PrepareBestProject := "Prepare your best project"
  const ReviewStack := "Review your tech stack"
  const DatabaseBasics := "Understand database basics"
  const ExplainArchitecture := "Prepare to explain your project architecture"
  const DeploymentBasics := "Learn deployment basics"
  const ExplainJourney := "Focus on explaining your learning journey"
  const SystemDesign := "Review system design fundamentals"
  const ExplainDecisions := "Practice explaining technical decisions"

  /** The DSA round: the first item names the Core CS skills, the fifth asks
      for SQL practice when `DBMS` itself is among them. */
  function DsaRoundItems(skills: SkillMap): (r: seq<string>)
    ensures |r| == 7
    ensures r[2] == MasterSorting && r[3] == UnderstandComplexity
  {
    var generic := IsGeneric(skills);
    var coreCs := Lookup(skills, "Core CS");
    [ if HasSkill(skills, "Core CS") then "Study " + Join(coreCs, ", ") + " concepts" else ReviewCoreCs,
      if generic then LearnBasicStructures else PracticeArrays,
      MasterSorting,
      UnderstandComplexity,
      if HasSkill(skills, "Core CS") && "DBMS" in coreCs then PracticeSql else ReviewStructures,
      if generic then PracticeSimple else SolveTrees,
      if generic then LearnAlgorithms else PracticeDp ]
  }

  /** The technical round: items built from the first language, the web and
      cloud lists and the first data store. */
  function TechRoundItems(skills: SkillMap): (r: seq<string>)
    ensures |r| == 7
    ensures r[3] == ExplainArchitecture && r[6] == ExplainDecisions
  {
    [ if HasSkill(skills, "Languages") then "Prepare projects using " + First(skills, "Languages") else PrepareBestProject,
      if HasSkill(skills, "Web") then "Deep dive into " + Join(Lookup(skills, "Web"), ", ") else ReviewStack,
      if HasSkill(skills, "Data") then "Practice database design with " + First(skills, "Data") else DatabaseBasics,
      ExplainArchitecture,
      if HasSkill(skills, "Cloud/DevOps") then "Study " + Join(Lookup(skills, "Cloud/DevOps"), ", ") + " basics" else DeploymentBasics,
      if IsGeneric(skills) then ExplainJourney else SystemDesign,
      ExplainDecisions ]
  }

  /** `generateChecklist(skills)`: four rounds with 5, 7, 7 and 6 items; the
      aptitude and HR rounds do not depend on the skills. */
  function GenerateChecklist(skills: SkillMap): (r: seq<ChecklistRound>)
    ensures |r| == 4
    ensures forall i :: 0 <= i < 4 ==> r[i].title == RoundTitles[i]
    ensures |r[0].items| == 5 && |r[1].items| == 7 && |r[2].items| == 7 && |r[3].items| == 6
    ensures r[0].items == AptitudeItems && r[3].items == HrItems
  {
    [ ChecklistRound(RoundTitles[0], AptitudeItems),
      ChecklistRound(RoundTitles[1], DsaRoundItems(skills)),
      ChecklistRound(RoundTitles[2], TechRoundItems(skills)),
      ChecklistRound(RoundTitles[3], HrItems) ]
  }

  // ----- generate7DayPlan -----

  const DayTitles: seq<string> := [
    "Basics + Core CS", "DSA + Coding Practice", "Project + Resume Alignment",
    "Mock Interview Questions", "Revision + Weak Areas"
  ]

  const ReviewCsFundamentals := "Review CS fundamentals"
  const LearnProgramming := "Learn basic programming concepts"
  const PracticeBasicCoding := "Practice basic coding problems"
  const StudyOop := "Study OOP basics"
  const ReviseOop := "Revise OOP concepts"
  const ReviewDatabase := "Review database concepts"

  const SolveEasyArrays := "Solve 5 easy array problems"
  const SolveTenArrays := "Solve 10 array/string problems"
  const LearnSorting := "Learn basic sorting"
  const PracticeTraversals := "Practice tree and graph traversals"
  const ComplexityBasics := "Understand time complexity basics"
  const ReviewSorting := "Review sorting algorithms"
  const PreferredLanguage := "Practice in your preferred language"
  const PracticeEasy := "Practice on HackerRank/LeetCode easy"
  const TimedTest := "Take a timed coding test"

  const UpdateResume := "Update resume with quantified achievements"
  const HighlightProject := "Highlight your best project"
  const ProjectDemo := "Prepare project demo"
  const RelevantSkills := "Add relevant skills"
  const ResumeReview := "Get resume reviewed by peers"

  const PracticeTen := "Practice 10 common interview questions"
  const PracticeTwenty := "Practice 20 common interview questions"
  const TechQuestions := "Prepare tech-specific questions"
  const RecordAnswers := "Record yourself answering questions"
  const ExplainProjects := "Practice explaining your projects"
  const Whiteboard := "Practice whiteboard coding"
  const BehavioralReview := "Review behavioral questions"

  const ReviseConcepts := "Revise all key concepts"
  const WeakestTopic := "Focus on your weakest topic"
  const TestingFrameworks := "Review testing frameworks"
  const Debugging := "Review debugging techniques"
  const ExplainLearning := "Practice explaining your learning journey"
  const MockInterview := "Take a full mock interview"
  const InterviewerQuestions := "Prepare questions for interviewer"
  const Rest := "Get good rest before interview"

  function Day12Tasks(skills: SkillMap): (r: seq<string>)
    ensures |r| == 4
  {
    var generic := IsGeneric(skills);
    [ if HasSkill(skills, "Core CS") then "Review " + Join(Take(Lookup(skills, "Core CS"), 3), ", ") else ReviewCsFundamentals,
      if generic then LearnProgramming else PracticeBasicCoding,
      if generic then StudyOop else ReviseOop,
      if HasSkill(skills, "Data") then "Study " + First(skills, "Data") + " basics" else ReviewDatabase ]
  }

  function Day34Tasks(skills: SkillMap): (r: seq<string>)
    ensures |r| == 5
  {
    var generic := IsGeneric(skills);
    [ if generic then SolveEasyArrays else SolveTenArrays,
      if generic then LearnSorting else PracticeTraversals,
      if generic then ComplexityBasics else ReviewSorting,
      if HasSkill(skills, "Languages") then "Code in " + First(skills, "Languages") else PreferredLanguage,
      if generic then PracticeEasy else TimedTest ]
  }

  function Day5Tasks(skills: SkillMap): (r: seq<string>)
    ensures |r| == 5
  {
    [ UpdateResume,
      if HasSkill(skills, "Web") then "Highlight " + First(skills, "Web") + " experience" else HighlightProject,
      ProjectDemo,
      if HasSkill(skills, "Cloud/DevOps") then "Add " + First(skills, "Cloud/DevOps") + " to resume" else RelevantSkills,
      ResumeReview ]
  }

  function Day6Tasks(skills: SkillMap): (r: seq<string>)
    ensures |r| == 5
  {
    var generic := IsGeneric(skills);
    [ if generic then PracticeTen else PracticeTwenty,
      if HasSkill(skills, "Web") then "Prepare " + First(skills, "Web") + " specific questions" else TechQuestions,
      RecordAnswers,
      if generic then ExplainProjects else Whiteboard,
      BehavioralReview ]
  }

  function Day7Tasks(skills: SkillMap): (r: seq<string>)
    ensures |r| == 6
  {
    [ ReviseConcepts,
      WeakestTopic,
      if HasSkill(skills, "Testing") then TestingFrameworks else Debugging,
      if IsGeneric(skills) then ExplainLearning else MockInterview,
      InterviewerQuestions,
      Rest ]
  }

  /** `generate7DayPlan(skills)`: five entries with fixed labels and titles,
      holding 4, 5, 5, 5 and 6 tasks. */
  function Generate7DayPlan(skills: SkillMap): (r: seq<DayPlan>)
    ensures |r| == 5
    ensures forall i :: 0 <= i < 5 ==> r[i].day == DayLabels[i] && r[i].title == DayTitles[i]
    ensures |r[0].tasks| == 4 && |r[1].tasks| == 5 && |r[2].tasks| == 5
    ensures |r[3].tasks| == 5 && |r[4].tasks| == 6
  {
    [ DayPlan(DayLabels[0], DayTitles[0], Day12Tasks(skills)),
      DayPlan(DayLabels[1], DayTitles[1], Day34Tasks(skills)),
      DayPlan(DayLabels[2], DayTitles[2], Day5Tasks(skills)),
      DayPlan(DayLabels[3], DayTitles[3], Day6Tasks(skills)),
      DayPlan(DayLabels[4], DayTitles[4], Day7Tasks(skills)) ]
  }

  // ----- generateInterviewQuestions -----

  /** The ten questions asked of a profile that fell back to `Other`. */
  const GenericProfileQuestions: seq<string> := [
    "Tell me about yourself and your background.",
    "What programming languages are you comfortable with?",
    "Describe a project you worked on and your role in it.",
    "How do you approach learning new technologies?",
    "What is your understanding of data structures?",
    "Explain the difference between a class and an object.",
    "How would you debug a program that is not working?",
    "What motivates you to pursue a career in software development?",
    "Describe a challenging problem you solved.",
    "Where do you see yourself in 3 years?"
  ]

  /** `genericQuestions`, cycled through to pad the list to ten. */
  const GenericQuestions: seq<string> := [
    "Describe a challenging bug you fixed and how you approached it.",
    "How do you stay updated with new technologies?",
    "Explain a project you are most proud of and your role in it.",
    "How do you handle tight deadlines and pressure?",
    "What is your approach to code reviews?"
  ]

  const BfsDfsQuestion := "Explain the difference between BFS and DFS. When would you use each?"
  const SortedSearchQuestion := "How would you optimize search in sorted data? Explain time complexity."
  const PolymorphismQuestion := "Explain polymorphism with a real-world example."
  const IndexingQuestion := "Explain database indexing and when it helps performance."
  const ProcessThreadQuestion := "What is the difference between process and thread?"
  const JavaQuestion := "Explain Java memory management and garbage collection."
  const PythonQuestion := "What are Python decorators and how do they work?"
  const JavaScriptQuestion := "Explain closures in JavaScript with an example."
  const ReactStateQuestion := "Explain state management options in React. When would you use Context vs Redux?"
  const ReactHooksQuestion := "What are React hooks and why were they introduced?"
  const NodeQuestion := "How does Node.js handle asynchronous operations?"
  const RestQuestion := "What are RESTful API best practices?"
  const SqlQuestion := "Write a SQL query to find the second highest salary from an Employee table."
  const MongoQuestion := "When would you choose MongoDB over a relational database?"
  const DockerQuestion := "Explain the difference between Docker containers and virtual machines."
  const AwsQuestion := "What AWS services would you use to deploy a web application?"
  const TestingQuestion := "How do you approach writing test cases for a new feature?"

  function CoreCsQuestions(cs: seq<string>): (r: seq<string>)
    ensures |r| <= 5
    ensures cs == [] ==> r == []
  {
    (if SomeIncludes(cs, "dsa") || SomeIncludes(cs, "algorithm")
     then [BfsDfsQuestion, SortedSearchQuestion] else [])
    + (if SomeIncludes(cs, "oop") then [PolymorphismQuestion] else [])
    + (if SomeIncludes(cs, "dbms") || SomeIncludes(cs, "database") then [IndexingQuestion] else [])
    + (if SomeIncludes(cs, "os") then [ProcessThreadQuestion] else [])
  }

  /** Only the first language is looked at, and `java` is tested first. */
  function LanguageQuestions(lang: string): (r: seq<string>)
    ensures |r| <= 1
    ensures r != [] ==> r[0] == JavaQuestion || r[0] == PythonQuestion || r[0] == JavaScriptQuestion
  {
    var l := ToLower(lang);
    if Contains(l, "java") then [JavaQuestion]
    else if Contains(l, "python") then [PythonQuestion]
    else if Contains(l, "javascript") then [JavaScriptQuestion]
    else []
  }

  function WebQuestions(web: seq<string>): (r: seq<string>)
    ensures |r| <= 4
    ensures web == [] ==> r == []
  {
    (if SomeIncludes(web, "react") then [ReactStateQuestion, ReactHooksQuestion] else [])
    + (if SomeIncludes(web, "node") then [NodeQuestion] else [])
    + (if SomeIncludes(web, "rest") then [RestQuestion] else [])
  }

  function DataQuestions(data: seq<string>): (r: seq<string>)
    ensures |r| <= 2
    ensures data == [] ==> r == []
  {
    (if SomeIncludes(data, "sql") then [SqlQuestion] else [])
    + (if SomeIncludes(data, "mongo") then [MongoQuestion] else [])
  }

  function CloudQuestions(cloud: seq<string>): (r: seq<string>)
    ensures |r| <= 2
    ensures cloud == [] ==> r == []
  {
    (if SomeIncludes(cloud, "docker") then [DockerQuestion] else [])
    + (if SomeIncludes(cloud, "aws") then [AwsQuestion] else [])
  }

  function CoreCsPart(skills: SkillMap): seq<string> {
    if HasSkill(skills, "Core CS") then CoreCsQuestions(Lookup(skills, "Core CS")) else []
  }

  function LanguagePart(skills: SkillMap): seq<string> {
    if HasSkill(skills, "Languages") then LanguageQuestions(First(skills, "Languages")) else []
  }

  function WebPart(skills: SkillMap): seq<string> {
    if HasSkill(skills, "Web") then WebQuestions(Lookup(skills, "Web")) else []
  }

  function DataPart(skills: SkillMap): seq<string> {
    if HasSkill(skills, "Data") then DataQuestions(Lookup(skills, "Data")) else []
  }

  function CloudPart(skills: SkillMap): seq<string> {
    if HasSkill(skills, "Cloud/DevOps") then CloudQuestions(Lookup(skills, "Cloud/DevOps")) else []
  }

  function TestingPart(skills: SkillMap): seq<string> {
    if HasSkill(skills, "Testing") then [TestingQuestion] else []
  }

  /** The skill-specific questions in check order: Core CS, Languages, Web,
      Data, Cloud/DevOps, Testing. An absent category contributes nothing. */
  function SpecificQuestions(skills: SkillMap): (r: seq<string>)
    ensures skills == [] ==> r == []
  {
    CoreCsPart(skills) + LanguagePart(skills) + WebPart(skills)
    + DataPart(skills) + CloudPart(skills) + TestingPart(skills)
  }

  /** Ten questions: `specific` first, then the generic padding, where the
      question at position i is `GenericQuestions[i % 5]`. */
  predicate PaddedToTen(questions: seq<string>, specific: seq<string>) {
    && |questions| == 10
    && forall i :: 0 <= i < 10 ==>
         questions[i] == if i < |specific| then specific[i] else GenericQuestions[i % 5]
  }

  /** The padding `while` loop and the final `slice(0, 10)`. */
  method PadToTen(specific: seq<string>) returns (questions: seq<string>)
    ensures PaddedToTen(questions, specific)
  {
    questions := specific;
    while |questions| < 10
      invariant |specific| <= |questions|
      invariant |specific| < 10 ==> |questions| <= 10
      invariant forall i :: 0 <= i < |questions| ==>
        questions[i] == if i < |specific| then specific[i] else GenericQuestions[i % 5]
      decreases 10 - |questions|
    {
      questions := questions + [GenericQuestions[|questions| % |GenericQuestions|]];
    }
    questions := questions[..10];
  }

  /** The `push` steps of the non-generic path, category by category in
      check order. */
  method CollectSpecific(skills: SkillMap) returns (questions: seq<string>)
    ensures questions == SpecificQuestions(skills)
  {
    questions := [];
    if HasSkill(skills, "Core CS") {
      questions := questions + CoreCsQuestions(Lookup(skills, "Core CS"));
    }
    assert questions == CoreCsPart(skills);
    if HasSkill(skills, "Languages") {
      questions := questions + LanguageQuestions(First(skills, "Languages"));
    }
    assert questions == CoreCsPart(skills) + LanguagePart(skills);
    if HasSkill(skills, "Web") {
      questions := questions + WebQuestions(Lookup(skills, "Web"));
    }
    assert questions == CoreCsPart(skills) + LanguagePart(skills) + WebPart(skills);
    if HasSkill(skills, "Data") {
      questions := questions + DataQuestions(Lookup(skills, "Data"));
    }
    assert questions == CoreCsPart(skills) + LanguagePart(skills) + WebPart(skills) + DataPart(skills);
    if HasSkill(skills, "Cloud/DevOps") {
      questions := questions + CloudQuestions(Lookup(skills, "Cloud/DevOps"));
    }
    assert questions == CoreCsPart(skills) + LanguagePart(skills) + WebPart(skills) + DataPart(skills)
                        + CloudPart(skills);
    if HasSkill(skills, "Testing") {
      questions := questions + [TestingQuestion];
    }
    assert questions == SpecificQuestions(skills);
  }

  /** `generateInterviewQuestions(skills)`: exactly ten questions; the fixed
      generic ten for a fallback profile, otherwise the specific questions
      first, padding at position i taken from `GenericQuestions[i % 5]`, and
      anything past ten cut off. */
  method GenerateInterviewQuestions(skills: SkillMap) returns (questions: seq<string>)
    ensures |questions| == 10
    ensures IsGeneric(skills) ==> questions == GenericProfileQuestions
    ensures !IsGeneric(skills) ==> PaddedToTen(questions, SpecificQuestions(skills))
  {
    if IsGeneric(skills) {
      questions := GenericProfileQuestions;
      return;
    }
    questions := CollectSpecific(skills);
    questions := PadToTen(questions);
  }

  // ----- calculateReadinessScore -----

  /** The score with no cap: 35, plus 5 per category up to 30, plus 10 for a
      company, 10 for a role and 10 for a job text over 800 characters. */
  function ReadinessScore(jdLength: nat, company: string, role: string, categories: nat): (r: int)
    ensures 35 <= r <= 95
  {
    35
    + (if 5 * categories < 30 then 5 * categories else 30)
    + (if IsBlank(company) then 0 else 10)
    + (if IsBlank(role) then 0 else 10)
    + (if jdLength > 800 then 10 else 0)
  }

  /** `calculateReadinessScore(jdText, company, role, skills)`; the number of
      categories is the number of keys of the skill map. */
  method CalculateReadinessScore(jdText: string, company: string, role: string, skills: SkillMap)
    returns (score: int)
    ensures score == ReadinessScore(|jdText|, company, role, |skills|)
    ensures 35 <= score <= 95
  {
    score := 35;
    var categoryCount := |skills|;
    score := score + if categoryCount * 5 < 30 then categoryCount * 5 else 30;
    if !IsBlank(company) {
      score := score + 10;
    }
    if !IsBlank(role) {
      score := score + 10;
    }
    if |jdText| > 800 {
      score := score + 10;
    }
    score := if score < 100 then score else 100;
  }

  /** The score never decreases when a term improves: more categories, a
      company or role that stops being blank, a longer job text. */
  lemma ReadinessScoreMonotone(len1: nat, len2: nat, company1: string, company2: string,
                               role1: string, role2: string, cats1: nat, cats2: nat)
    requires len1 <= len2 && cats1 <= cats2
    requires !IsBlank(company1) ==> !IsBlank(company2)
    requires !IsBlank(role1) ==> !IsBlank(role2)
    ensures ReadinessScore(len1, company1, role1, cats1) <= ReadinessScore(len2, company2, role2, cats2)
  {
  }

  /** The JavaScript branch of the language question is dead: every lower-cased
      name containing "javascript" already contains "java", so the Java
      question is asked instead. */
  lemma JavaScriptQuestionNeverAsked(lang: string)
    ensures JavaScriptQuestion !in LanguageQuestions(lang)
    ensures Contains(ToLower(lang), "javascript") ==>
            LanguageQuestions(lang) == [JavaQuestion]
  {
    var l := ToLower(lang);
    if Contains(l, "javascript") {
      assert "javascript" == "java" + "script";
      ContainsConcatPrefix(l, "java", "script");
    }
  }
}
