/**
 * The list logic of the skills selector: adding a typed or suggested skill, removing one,
 * and the suggestion list shown while typing.
 */
module SkillsSelector {
  import opened Text
  import opened Sequences
  import opened ProjectSchema

  /** An entry of the predefined skill catalogue. */
  datatype SkillOption = SkillOption(id: string, name: string, category: string)

  /** The catalogue suggestions are drawn from, in display order. */
  const PopularSkills: seq<SkillOption> := [
    SkillOption("react", "React", "Frontend"),
    SkillOption("javascript", "JavaScript", "Programming"),
    SkillOption("typescript", "TypeScript", "Programming"),
    SkillOption("nodejs", "Node.js", "Backend"),
    SkillOption("python", "Python", "Programming"),
    SkillOption("ui-design", "UI Design", "Design"),
    SkillOption("ux-design", "UX Design", "Design"),
    SkillOption("figma", "Figma", "Design"),
    SkillOption("content-writing", "Content Writing", "Writing"),
    SkillOption("seo", "SEO", "Marketing"),
    SkillOption("social-media", "Social Media", "Marketing"),
    SkillOption("wordpress", "WordPress", "CMS"),
    SkillOption("shopify", "Shopify", "E-commerce"),
    SkillOption("mobile-development", "Mobile Development", "Development"),
    SkillOption("database", "Database", "Backend"),
    SkillOption("api", "API Development", "Backend"),
    SkillOption("testing", "Testing", "Quality Assurance"),
    SkillOption("devops", "DevOps", "Infrastructure"),
    SkillOption("aws", "AWS", "Cloud"),
    SkillOption("docker", "Docker", "Infrastructure")
  ]

  const MaxSuggestions := 8

  predicate NoDuplicates(s: seq<string>) {
    forall i, j :: 0 <= i < j < |s| ==> s[i] != s[j]
  }

  /** `handleAddSkill`: appends the trimmed input when it is non-blank, new, and the list has room. */
  function AddSkill(added: seq<string>, input: string): (r: seq<string>)
    ensures r == added || r == added + [Trim(input)]
    ensures r != added <==> !IsBlank(input) && Trim(input) !in added && |added| < MaxSkills
    ensures |added| >= MaxSkills ==> r == added
    ensures |added| <= MaxSkills ==> |r| <= MaxSkills
  {
    var skill := Trim(input);
    if skill != [] && skill !in added && |added| < MaxSkills then added + [skill] else added
  }

  /** `handleRemoveSkill`: drops every occurrence of `skill` and keeps the rest in order. */
  function RemoveSkill(added: seq<string>, skill: string): (r: seq<string>)
    ensures forall x :: x in r <==> x in added && x != skill
    ensures multiset(r) == multiset(added)[skill := 0]
    ensures IsSubsequence(r, added)
    ensures skill !in added ==> r == added
  {
    if added == [] then []
    else
      var rest := RemoveSkill(added[1..], skill);
      assert added == [added[0]] + added[1..];
      assert multiset(added) == multiset{added[0]} + multiset(added[1..]);
      if added[0] == skill then rest
      else
        var r := [added[0]] + rest;
        assert r[0] == added[0] && r[1..] == rest;
        r
  }

  /** The filter of the first effect: the name contains the query (ignoring case) and is not added yet. */
  predicate Matches(option: SkillOption, query: string, added: seq<string>) {
    Contains(ToLower(option.name), ToLower(query)) && option.name !in added
  }

  /** `catalog.filter(...)`: the matching entries, in catalogue order. */
  function MatchingSkills(catalog: seq<SkillOption>, query: string, added: seq<string>): (r: seq<SkillOption>)
    ensures forall x :: x in r <==> x in catalog && Matches(x, query, added)
    ensures IsSubsequence(r, catalog)
    ensures forall y :: multiset(r)[y] == if Matches(y, query, added) then multiset(catalog)[y] else 0
  {
    if catalog == [] then []
    else
      var rest := MatchingSkills(catalog[1..], query, added);
      assert catalog == [catalog[0]] + catalog[1..];
      assert multiset(catalog) == multiset{catalog[0]} + multiset(catalog[1..]);
      if Matches(catalog[0], query, added) then [catalog[0]] + rest else rest
  }

  /**
   * The first eight entries of `catalog` that match `query`: none for a blank query,
   * otherwise matching entries in catalogue order, and every match when fewer than eight.
   */
  function TopMatches(catalog: seq<SkillOption>, query: string, added: seq<string>): (r: seq<SkillOption>)
    ensures |r| <= MaxSuggestions
    ensures IsBlank(query) ==> r == []
    ensures forall x :: x in r ==> x in catalog && Contains(ToLower(x.name), ToLower(query)) && x.name !in added
    ensures IsSubsequence(r, catalog)
    ensures !IsBlank(query) ==> r <= MatchingSkills(catalog, query, added)
    ensures !IsBlank(query) ==>
      |r| == if |MatchingSkills(catalog, query, added)| < MaxSuggestions
             then |MatchingSkills(catalog, query, added)| else MaxSuggestions
    ensures !IsBlank(query) && |r| < MaxSuggestions ==>
      forall x :: x in catalog && Matches(x, query, added) ==> x in r
  {
    if Trim(query) == [] then []
    else
      var m := MatchingSkills(catalog, query, added);
      var k := if |m| < MaxSuggestions then |m| else MaxSuggestions;
      PrefixOfSubsequence(m, catalog, k);
      assert k < MaxSuggestions ==> m[..k] == m;
      assert forall x :: x in m[..k] ==> x in m;
      m[..k]
  }

  /** The suggestions the selector shows for `query`, drawn from the popular skills. */
  function Suggestions(query: string, added: seq<string>): (r: seq<SkillOption>)
    ensures |r| <= MaxSuggestions
    ensures IsBlank(query) ==> r == []
    ensures forall x :: x in r ==> x in PopularSkills && Contains(ToLower(x.name), ToLower(query)) && x.name !in added
    ensures IsSubsequence(r, PopularSkills)
    ensures !IsBlank(query) ==> r <= MatchingSkills(PopularSkills, query, added)
    ensures !IsBlank(query) ==>
      |r| == if |MatchingSkills(PopularSkills, query, added)| < MaxSuggestions
             then |MatchingSkills(PopularSkills, query, added)| else MaxSuggestions
    ensures !IsBlank(query) && |r| < MaxSuggestions ==>
      forall x :: x in PopularSkills && Matches(x, query, added) ==> x in r
  {
    TopMatches(PopularSkills, query, added)
  }

  // ---------------------------------------------------------------- lists built by editing

  /** One user action on the skill list. */
  datatype SkillEdit = Add(input: string) | Remove(skill: string)

  function ApplyEdit(added: seq<string>, edit: SkillEdit): seq<string> {
    match edit
    case Add(input) => AddSkill(added, input)
    case Remove(skill) => RemoveSkill(added, skill)
  }

  function ApplyEdits(added: seq<string>, edits: seq<SkillEdit>): seq<string>
    decreases |edits|
  {
    if edits == [] then added else ApplyEdits(ApplyEdit(added, edits[0]), edits[1..])
  }

  /** What the selector keeps true of its list: at most ten distinct, non-blank skills. */
  predicate WithinSkillLimits(s: seq<string>) {
    |s| <= MaxSkills && AllNonBlank(s) && NoDuplicates(s)
  }

  /** Adding keeps a list within the limits: the new entry is trimmed, so not blank, and not yet present. */
  lemma AddKeepsLimits(added: seq<string>, input: string)
    requires WithinSkillLimits(added)
    ensures WithinSkillLimits(AddSkill(added, input))
  {
    var r := AddSkill(added, input);
    if r != added {
      var skill := Trim(input);
      TrimIdempotent(input);
      assert r == added + [skill];
      assert Trim(r[|added|]) != [];
      forall i, j | 0 <= i < j < |r| ensures r[i] != r[j] {
        if j == |added| {
          assert r[i] in added;
        }
      }
    }
  }

  /** Removing keeps a list within the limits: it only drops entries. */
  lemma RemoveKeepsLimits(added: seq<string>, skill: string)
    requires WithinSkillLimits(added)
    ensures WithinSkillLimits(RemoveSkill(added, skill))
  {
    var r := RemoveSkill(added, skill);
    RemoveKeepsDistinct(added, skill);
    assert |r| <= |added| by {
      assert |multiset(r)| <= |multiset(added)|;
    }
    MembersKeepNonBlank(r, added);
  }

  /** Every entry of `r` is an entry of `s`, so none of them is blank when none of `s` is. */
  lemma MembersKeepNonBlank(r: seq<string>, s: seq<string>)
    requires forall x :: x in r ==> x in s
    requires AllNonBlank(s)
    ensures AllNonBlank(r)
  {
    forall i | 0 <= i < |r| ensures Trim(r[i]) != [] {
      assert r[i] in s;
    }
  }

  /** Removing from a duplicate-free list leaves it duplicate-free. */
  lemma {:induction false} RemoveKeepsDistinct(added: seq<string>, skill: string)
    requires NoDuplicates(added)
    ensures NoDuplicates(RemoveSkill(added, skill))
  {
    if added != [] {
      RemoveKeepsDistinct(added[1..], skill);
      var rest := RemoveSkill(added[1..], skill);
      if added[0] != skill {
        var r := [added[0]] + rest;
        assert added[0] !in added[1..];
        forall i, j | 0 <= i < j < |r| ensures r[i] != r[j] {
          if i == 0 {
            assert r[j] in rest;
          } else {
            assert r[i] == rest[i - 1] && r[j] == rest[j - 1];
          }
        }
      }
    }
  }

  /** Every sequence of adds and removes keeps the list within the limits. */
  lemma {:induction false} EditsKeepLimits(added: seq<string>, edits: seq<SkillEdit>)
    requires WithinSkillLimits(added)
    ensures WithinSkillLimits(ApplyEdits(added, edits))
    decreases |edits|
  {
    if edits != [] {
      var next := ApplyEdit(added, edits[0]);
      if edits[0].Remove? {
        RemoveKeepsLimits(added, edits[0].skill);
      } else {
        AddKeepsLimits(added, edits[0].input);
      }
      assert WithinSkillLimits(next);
      EditsKeepLimits(next, edits[1..]);
    }
  }

  /**
   * A list built from nothing by adds and removes never breaks the "at most 10" and
   * "all non-blank" rules of step 1, and satisfies its skills rule as soon as it is non-empty.
   */
  lemma EditedListsSatisfySchema(edits: seq<SkillEdit>)
    ensures var r := ApplyEdits([], edits);
      |r| <= MaxSkills && AllNonBlank(r) && NoDuplicates(r) && (r != [] ==> SkillsValid(r))
  {
    EditsKeepLimits([], edits);
  }
}
