/** The keyword catalog and the skill extractor of
    placement-app/src/utils/skillExtractor.js. A skill map is an ordered
    sequence of (category, skills) entries: the JavaScript object's key
    insertion order is observable, so the order is part of the model. */
module Skills {
  import opened Text

  /** One catalog category with its keywords, in declaration order. */
  datatype Category = Category(name: string, keywords: seq<string>)

  /** One key of the extracted-skills object and its value. */
  datatype Entry = Entry(category: string, skills: seq<string>)

  type SkillMap = seq<Entry>

  /** `SKILL_CATEGORIES`, in declaration order. */
  const Catalog: seq<Category> := [
    Category("Core CS", ["DSA", "OOP", "DBMS", "OS", "Networks", "Data Structures", "Algorithms", "Operating System", "Database"]),
    Category("Languages", ["Java", "Python", "JavaScript", "TypeScript", "C++", "C#", "Go", "C"]),
    Category("Web", ["React", "Next.js", "Node.js", "Express", "REST", "GraphQL", "Angular", "Vue", "HTML", "CSS"]),
    Category("Data", ["SQL", "MongoDB", "PostgreSQL", "MySQL", "Redis", "NoSQL"]),
    Category("Cloud/DevOps", ["AWS", "Azure", "GCP", "Docker", "Kubernetes", "CI/CD", "Linux", "Jenkins", "Git"]),
    Category("Testing", ["Selenium", "Cypress", "Playwright", "JUnit", "PyTest", "Jest", "Testing"])
  ]

  /** The fallback key and its placeholder skills. */
  const Other: string := "Other"
  const OtherDefaults: seq<string> := ["Communication", "Problem solving", "Basic coding", "Projects"]

  /** `skills[category]`, with an absent key read as the empty list. */
  function Lookup(skills: SkillMap, category: string): (r: seq<string>)
    ensures r != [] ==> Entry(category, r) in skills
    ensures (forall e :: e in skills ==> e.category != category) ==> r == []
  {
    if |skills| == 0 then []
    else if skills[0].category == category then skills[0].skills
    else Lookup(skills[1..], category)
  }

  /** The `hasSkill` helper every generator defines. */
  predicate HasSkill(skills: SkillMap, category: string)
    ensures HasSkill(skills, category) ==> Entry(category, Lookup(skills, category)) in skills
    ensures (forall e :: e in skills ==> e.category != category) ==> !HasSkill(skills, category)
  {
    Lookup(skills, category) != []
  }

  /** `skills[category][0]` for a category known to be non-empty. */
  function First(skills: SkillMap, category: string): string
    requires HasSkill(skills, category)
  {
    Lookup(skills, category)[0]
  }

  /** `list.some(s => s.toLowerCase().includes(pat))`. */
  predicate SomeIncludes(list: seq<string>, pat: string) {
    exists i :: 0 <= i < |list| && Contains(ToLower(list[i]), pat)
  }

  /** The catalog keywords (in catalog order) whose lower-case form occurs in
      the already lower-cased text: the `filter` of `extractSkills`. */
  function Matched(lower: string, keywords: seq<string>): seq<string>
  {
    if |keywords| == 0 then []
    else
      var last := keywords[|keywords| - 1];
      Matched(lower, keywords[..|keywords| - 1])
        + (if Contains(lower, ToLower(last)) then [last] else [])
  }

  /** Category `i` of the catalog with its matched keywords. */
  function Slot(lower: string, i: nat): Entry
    requires i < |Catalog|
  {
    Entry(Catalog[i].name, Matched(lower, Catalog[i].keywords))
  }

  /** The entries with a non-empty list, in order: the final `delete` pass. */
  function DropEmpty(s: SkillMap): (r: SkillMap)
  {
    if |s| == 0 then []
    else DropEmpty(s[..|s| - 1]) + (if s[|s| - 1].skills != [] then [s[|s| - 1]] else [])
  }

  /** All catalog slots, before empty ones are dropped. */
  function Slots(lower: string): (r: SkillMap)
    ensures |r| == |Catalog|
    ensures forall i :: 0 <= i < |Catalog| ==> r[i] == Slot(lower, i)
  {
    seq(|Catalog|, i requires 0 <= i < |Catalog| => Slot(lower, i))
  }

  /** What `extractSkills` returns for the lower-cased text. */
  function Extracted(lower: string): (r: SkillMap)
    ensures 1 <= |r| <= |Catalog|
  {
    DropEmptyLength(Slots(lower));
    var found := DropEmpty(Slots(lower));
    if found == [] then [Entry(Other, OtherDefaults)] else found
  }

  /** The `filter` over one category's keywords. */
  method FilterMatched(lowerText: string, keywords: seq<string>) returns (found: seq<string>)
    ensures found == Matched(lowerText, keywords)
  {
    found := [];
    var k := 0;
    while k < |keywords|
      invariant 0 <= k <= |keywords|
      invariant found == Matched(lowerText, keywords[..k])
    {
      assert keywords[..k + 1][..k] == keywords[..k];
      if Contains(lowerText, ToLower(keywords[k])) {
        found := found + [keywords[k]];
      }
      k := k + 1;
    }
    assert keywords[..k] == keywords;
  }

  /** The final pass that deletes every key whose list is empty. */
  method RemoveEmpty(slots: SkillMap) returns (kept: SkillMap)
    ensures kept == DropEmpty(slots)
  {
    kept := [];
    var j := 0;
    while j < |slots|
      invariant 0 <= j <= |slots|
      invariant kept == DropEmpty(slots[..j])
    {
      assert slots[..j + 1][..j] == slots[..j];
      if |slots[j].skills| > 0 {
        kept := kept + [slots[j]];
      }
      j := j + 1;
    }
    assert slots[..j] == slots;
  }

  /** The initial seven-key object and the `forEach` over the catalog: each
      category with a match gets its matched keywords, `Other` stays empty. */
  method MatchCatalog(lowerText: string) returns (slots: SkillMap)
    ensures |slots| == |Catalog| + 1
    ensures slots[..|Catalog|] == Slots(lowerText)
    ensures slots[|Catalog|] == Entry(Other, [])
  {
    var n := |Catalog|;
    slots := seq(n, i requires 0 <= i < n => Entry(Catalog[i].name, [])) + [Entry(Other, [])];
    var c := 0;
    while c < n
      invariant 0 <= c <= n
      invariant |slots| == n + 1
      invariant forall i :: 0 <= i < c ==> slots[i] == Slot(lowerText, i)
      invariant forall i :: c <= i < n ==> slots[i] == Entry(Catalog[i].name, [])
      invariant slots[n] == Entry(Other, [])
    {
      var found := FilterMatched(lowerText, Catalog[c].keywords);
      if |found| > 0 {
        slots := slots[c := Entry(Catalog[c].name, found)];
      }
      c := c + 1;
    }
    assert slots[..n] == Slots(lowerText);
  }

  /** `extractSkills(jdText)`: the catalog pass, the `Other` fallback when no
      key holds a skill, and the removal of empty keys. */
  method ExtractSkills(jdText: string) returns (extracted: SkillMap)
    ensures extracted == Extracted(ToLower(jdText))
  {
    var lowerText := ToLower(jdText);
    var n := |Catalog|;
    var slots := MatchCatalog(lowerText);
    var hasAnySkills := exists i :: 0 <= i < |slots| && slots[i].skills != [];
    if !hasAnySkills {
      slots := slots[n := Entry(Other, OtherDefaults)];
    }
    extracted := RemoveEmpty(slots);
    ghost var head := Slots(lowerText);
    assert slots[..n] == head;
    assert slots == head + [slots[n]];
    DropEmptyAppend(head, [slots[n]]);
    DropEmptyNone(head);
    if hasAnySkills {
      assert exists i :: 0 <= i < n && head[i].skills != [];
    }
  }


  // ----- properties of the helpers -----

  /** A keyword is matched iff it is in the list and occurs in the text. */
  lemma {:induction false} MatchedMembers(lower: string, keywords: seq<string>, k: string)
    ensures k in Matched(lower, keywords) <==> k in keywords && Contains(lower, ToLower(k))
    decreases |keywords|
  {
    if |keywords| > 0 {
      var init := keywords[..|keywords| - 1];
      MatchedMembers(lower, init, k);
      assert keywords == init + [keywords[|keywords| - 1]];
    }
  }

  lemma {:induction false} DropEmptyAppend(a: SkillMap, b: SkillMap)
    ensures DropEmpty(a + b) == DropEmpty(a) + DropEmpty(b)
    decreases |b|
  {
    if |b| == 0 {
      assert a + b == a;
    } else {
      var b' := b[..|b| - 1];
      DropEmptyAppend(a, b');
      assert (a + b)[..|a + b| - 1] == a + b';
    }
  }

  lemma {:induction false} DropEmptyLength(s: SkillMap)
    ensures |DropEmpty(s)| <= |s|
    decreases |s|
  {
    if |s| > 0 {
      DropEmptyLength(s[..|s| - 1]);
    }
  }

  /** Nothing is left iff every entry was empty. */
  lemma {:induction false} DropEmptyNone(s: SkillMap)
    ensures DropEmpty(s) == [] <==> forall i :: 0 <= i < |s| ==> s[i].skills == []
    decreases |s|
  {
    if |s| > 0 {
      DropEmptyNone(s[..|s| - 1]);
      assert forall i :: 0 <= i < |s| - 1 ==> s[..|s| - 1][i] == s[i];
    }
  }

  /** What survives is exactly the non-empty entries. */
  lemma {:induction false} DropEmptyMembers(s: SkillMap, e: Entry)
    ensures e in DropEmpty(s) <==> e in s && e.skills != []
    decreases |s|
  {
    if |s| > 0 {
      DropEmptyMembers(s[..|s| - 1], e);
      assert s == s[..|s| - 1] + [s[|s| - 1]];
    }
  }

  // ----- properties of extractSkills -----

  /** The position of a category name in the catalog; `Other` and unknown
      names come after every catalog category. */
  function CatalogIndex(name: string): (r: nat)
    ensures r <= |Catalog|
    ensures r < |Catalog| ==> Catalog[r].name == name
  {
    if name == "Core CS" then 0
    else if name == "Languages" then 1
    else if name == "Web" then 2
    else if name == "Data" then 3
    else if name == "Cloud/DevOps" then 4
    else if name == "Testing" then 5
    else 6
  }

  /** No catalog keyword occurs in the text. */
  predicate NoCatalogMatch(lower: string) {
    forall i :: 0 <= i < |Catalog| ==> Matched(lower, Catalog[i].keywords) == []
  }

  /** Keys come in catalog order, each at most once, `Other` last. */
  predicate InCatalogOrder(s: SkillMap) {
    forall a, b :: 0 <= a < b < |s| ==> CatalogIndex(s[a].category) < CatalogIndex(s[b].category)
  }

  lemma CatalogIndexOfName(i: nat)
    requires i < |Catalog|
    ensures CatalogIndex(Catalog[i].name) == i
  {
  }

  /** The result is never empty and no key maps to an empty list. */
  lemma ExtractedNonEmpty(lower: string)
    ensures |Extracted(lower)| >= 1
    ensures forall e :: e in Extracted(lower) ==> e.skills != []
  {
    var found := DropEmpty(Slots(lower));
    forall e | e in found
      ensures e.skills != []
    {
      DropEmptyMembers(Slots(lower), e);
    }
  }

  /** A catalog category is a key of the result iff one of its keywords
      matched, and then its value is exactly the matched keywords in catalog
      order. */
  lemma ExtractedCategory(lower: string, i: nat)
    requires i < |Catalog|
    ensures Slot(lower, i).skills != [] <==> Slot(lower, i) in Extracted(lower)
    ensures forall e :: e in Extracted(lower) && e.category == Catalog[i].name ==> e == Slot(lower, i)
  {
    var slots := Slots(lower);
    var found := DropEmpty(slots);
    DropEmptyMembers(slots, Slot(lower, i));
    ExtractedNonEmpty(lower);
    CatalogIndexOfName(i);
    forall e | e in Extracted(lower) && e.category == Catalog[i].name
      ensures e == Slot(lower, i)
    {
      if found != [] {
        DropEmptyMembers(slots, e);
        var j :| 0 <= j < |slots| && slots[j] == e;
        CatalogIndexOfName(j);
      }
    }
  }

  /** `Other` is a key iff no catalog keyword matched; it is then the only
      key, holding the four placeholder skills. */
  lemma ExtractedFallback(lower: string)
    ensures HasSkill(Extracted(lower), Other) <==> NoCatalogMatch(lower)
    ensures NoCatalogMatch(lower) ==> Extracted(lower) == [Entry(Other, OtherDefaults)]
  {
    var slots := Slots(lower);
    var found := DropEmpty(slots);
    DropEmptyNone(slots);
    if found == [] {
      forall i | 0 <= i < |Catalog|
        ensures Matched(lower, Catalog[i].keywords) == []
      {
        assert slots[i] == Slot(lower, i);
      }
    } else {
      assert !NoCatalogMatch(lower);
      if HasSkill(found, Other) {
        DropEmptyMembers(slots, Entry(Other, Lookup(found, Other)));
        var j :| 0 <= j < |slots| && slots[j] == Entry(Other, Lookup(found, Other));
        CatalogIndexOfName(j);
        assert false;
      }
    }
  }

  /** Keys appear in catalog order (the object's insertion order). */
  lemma ExtractedOrder(lower: string)
    ensures InCatalogOrder(Extracted(lower))
  {
    var slots := Slots(lower);
    forall i | 0 <= i < |slots|
      ensures CatalogIndex(slots[i].category) == i
    {
      CatalogIndexOfName(i);
    }
    DropEmptyOrdered(slots);
  }

  lemma {:induction false} DropEmptyOrdered(s: SkillMap)
    requires InCatalogOrder(s)
    ensures InCatalogOrder(DropEmpty(s))
    decreases |s|
  {
    if |s| > 0 {
      var init := s[..|s| - 1];
      var last := s[|s| - 1];
      DropEmptyOrdered(init);
      if last.skills != [] {
        var d := DropEmpty(init);
        forall a | 0 <= a < |d|
          ensures CatalogIndex(d[a].category) < CatalogIndex(last.category)
        {
          DropEmptyMembers(init, d[a]);
          var j :| 0 <= j < |init| && init[j] == d[a];
        }
      }
    }
  }

  /** Empty job text yields the fallback. */
  lemma ExtractedEmptyText()
    ensures Extracted(ToLower("")) == [Entry(Other, OtherDefaults)]
  {
    assert ToLower("") == "";
    forall i | 0 <= i < |Catalog|
      ensures Matched("", Catalog[i].keywords) == []
    {
      MatchedInEmptyText(Catalog[i].keywords);
    }
    ExtractedFallback("");
  }

  lemma {:induction false} MatchedInEmptyText(keywords: seq<string>)
    requires forall j :: 0 <= j < |keywords| ==> |keywords[j]| > 0
    ensures Matched("", keywords) == []
    decreases |keywords|
  {
    if |keywords| > 0 {
      MatchedInEmptyText(keywords[..|keywords| - 1]);
      EmptyContainsNothing(ToLower(keywords[|keywords| - 1]));
    }
  }
}
