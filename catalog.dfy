/**
 * The project catalog of the showcase section: the project record, the six
 * hard-coded projects, the category buttons, and the category filter that
 * decides which cards the gallery shows.
 */
module Catalog {

  /** One brand-identity project. `featured` is optional in the source; absent reads as false. */
  datatype Project = Project(
    id: string,
    title: string,
    category: string,
    description: string,
    colors: seq<string>,
    tags: seq<string>,
    image: string,
    featured: bool)

  /** The synthetic filter value that selects every project. */
  const AllCategory: string := "All"

  /** The category buttons, in display order; the first is the wildcard. */
  const Categories: seq<string> :=
    [AllCategory, "Luxury Retail", "Technology", "Food & Beverage", "Architecture", "Wellness", "Sports"]

  /** The catalog, in display order. `image` holds the name of the bundled asset. */
  const MockProjects: seq<Project> := [
    Project("1", "Novelty - Imitation Jewellery", "Luxury Retail",
      "Elegant brand identity for premium imitation jewelry brand focusing on sophistication and affordability.",
      ["#FFD700", "#1A1A1A", "#2D5016", "#C5A572"],
      ["Luxury", "Jewelry", "Retail", "Gold", "Premium"],
      "novelty-jewelry.jpg", true),
    Project("2", "GreenTech Solutions", "Technology",
      "Sustainable technology company branding with eco-friendly color palette and modern typography.",
      ["#22C55E", "#1F2937", "#10B981", "#065F46"],
      ["Technology", "Eco", "Sustainable", "Modern"],
      "greentech-solutions.jpg", false),
    Project("3", "Artisan Coffee Co.", "Food & Beverage",
      "Artisanal coffee brand with rustic charm and premium positioning in the specialty coffee market.",
      ["#A0522D", "#8B4513", "#DEB887", "#2F1B14"],
      ["Coffee", "Artisan", "Premium", "Rustic"],
      "artisan-coffee.jpg", false),
    Project("4", "Zenith Architecture", "Architecture",
      "Modern architectural firm branding emphasizing clean lines, innovation, and sustainable design.",
      ["#374151", "#6B7280", "#F3F4F6", "#111827"],
      ["Architecture", "Modern", "Clean", "Professional"],
      "zenith-architecture.jpg", false),
    Project("5", "Luna Wellness Spa", "Wellness",
      "Luxury spa and wellness center with calming colors and serene brand positioning.",
      ["#E0E7FF", "#8B5CF6", "#A78BFA", "#4C1D95"],
      ["Wellness", "Spa", "Luxury", "Calming"],
      "luna-wellness.jpg", true),
    Project("6", "Velocity Sports", "Sports",
      "Dynamic sports brand with energetic color scheme and bold typography for athletic performance.",
      ["#EF4444", "#DC2626", "#FEE2E2", "#991B1B"],
      ["Sports", "Dynamic", "Energy", "Performance"],
      "velocity-sports.jpg", false)
  ]

  /** Ids are pairwise distinct and every project's category is a real (non-wildcard) button. */
  predicate WellFormedCatalog(projects: seq<Project>, categories: seq<string>)
  {
    && |categories| > 0
    && categories[0] == AllCategory
    && AllCategory !in categories[1..]
    && (forall i, j :: 0 <= i < j < |projects| ==> projects[i].id != projects[j].id)
    && (forall i :: 0 <= i < |projects| ==> projects[i].category in categories[1..])
  }

  lemma MockCatalogWellFormed()
    ensures WellFormedCatalog(MockProjects, Categories)
  {
  }

  /** The projects whose category is exactly `category`, in catalog order (`Array.prototype.filter`). */
  function WithCategory(projects: seq<Project>, category: string): (r: seq<Project>)
    ensures |r| <= |projects|
    ensures forall p :: p in r <==> p in projects && p.category == category
  {
    if projects == [] then []
    else
      var init, last := projects[..|projects| - 1], projects[|projects| - 1];
      assert projects == init + [last];
      var kept := WithCategory(init, category);
      if last.category == category then kept + [last] else kept
  }

  /** The cards the gallery lists for the selected category. */
  function FilteredProjects(projects: seq<Project>, selected: string): (r: seq<Project>)
    ensures selected == AllCategory ==> r == projects
    ensures selected != AllCategory ==> forall p :: p in r <==> p in projects && p.category == selected
  {
    if selected == AllCategory then projects else WithCategory(projects, selected)
  }

  /** The positions of `projects` whose category is `category`, ascending. */
  function MatchPositions(projects: seq<Project>, category: string): (idx: seq<nat>)
    ensures forall k :: 0 <= k < |idx| ==> idx[k] < |projects|
  {
    if projects == [] then []
    else
      var n := |projects| - 1;
      var rest := MatchPositions(projects[..n], category);
      if projects[n].category == category then rest + [n] else rest
  }

  /** `idx` embeds `r` into `s`: strictly increasing positions of `s` that spell out `r`. */
  predicate Embeds(idx: seq<nat>, r: seq<Project>, s: seq<Project>)
  {
    && |idx| == |r|
    && (forall k :: 0 <= k < |idx| ==> idx[k] < |s| && r[k] == s[idx[k]])
    && (forall k, l :: 0 <= k < l < |idx| ==> idx[k] < idx[l])
  }

  ghost predicate IsSubsequence(r: seq<Project>, s: seq<Project>)
  {
    exists idx :: Embeds(idx, r, s)
  }

  /** A catalog position is among the matching positions iff its project has the category. */
  lemma {:induction false} MatchPositionsAreMatches(projects: seq<Project>, category: string)
    ensures forall i :: 0 <= i < |projects| ==>
              (i in MatchPositions(projects, category) <==> projects[i].category == category)
  {
    if projects != [] {
      var n := |projects| - 1;
      MatchPositionsAreMatches(projects[..n], category);
      var rest := MatchPositions(projects[..n], category);
      forall i | 0 <= i < |projects|
        ensures i in MatchPositions(projects, category) <==> projects[i].category == category
      {
        if i < n {
          assert projects[..n][i] == projects[i];
        }
      }
    }
  }

  /** The matching positions embed the filtered list into the catalog. */
  lemma {:induction false} MatchPositionsSpellFilter(projects: seq<Project>, category: string)
    ensures Embeds(MatchPositions(projects, category), WithCategory(projects, category), projects)
  {
    if projects != [] {
      var n := |projects| - 1;
      var init := projects[..n];
      MatchPositionsSpellFilter(init, category);
      var rest, kept := MatchPositions(init, category), WithCategory(init, category);
      var idx, r := MatchPositions(projects, category), WithCategory(projects, category);
      if projects[n].category == category {
        assert idx == rest + [n] && r == kept + [projects[n]];
        forall k | 0 <= k < |idx|
          ensures idx[k] < |projects| && r[k] == projects[idx[k]]
        {
          if k < |rest| {
            assert idx[k] == rest[k] && r[k] == kept[k] && init[rest[k]] == projects[rest[k]];
          }
        }
      } else {
        assert idx == rest && r == kept;
        forall k | 0 <= k < |idx|
          ensures idx[k] < |projects| && r[k] == projects[idx[k]]
        {
          assert init[rest[k]] == projects[rest[k]];
        }
      }
    }
  }

  /**
   * The filter keeps, in catalog order, exactly the projects of the selected
   * category: it is a subsequence of the catalog, and a position of the catalog
   * is used by it iff that project's category matches.
   */
  lemma FilterIsOrderedSelection(projects: seq<Project>, selected: string)
    ensures IsSubsequence(FilteredProjects(projects, selected), projects)
    ensures selected != AllCategory ==>
              var idx := MatchPositions(projects, selected);
              Embeds(idx, FilteredProjects(projects, selected), projects) &&
              forall i :: 0 <= i < |projects| ==> (i in idx <==> projects[i].category == selected)
  {
    if selected == AllCategory {
      var idx := seq(|projects|, i requires 0 <= i => i as nat);
      assert Embeds(idx, projects, projects);
    } else {
      MatchPositionsSpellFilter(projects, selected);
      MatchPositionsAreMatches(projects, selected);
    }
  }

  /** A list that already holds only projects of `category` is left unchanged by filtering on it. */
  lemma {:induction false} WithCategoryKeepsUniform(projects: seq<Project>, category: string)
    requires forall p :: p in projects ==> p.category == category
    ensures WithCategory(projects, category) == projects
  {
    if projects != [] {
      var init := projects[..|projects| - 1];
      assert forall p :: p in init ==> p in projects;
      WithCategoryKeepsUniform(init, category);
      assert init + [projects[|projects| - 1]] == projects;
    }
  }

  /** Re-filtering the visible list by the same category changes nothing. */
  lemma FilterIdempotent(projects: seq<Project>, selected: string)
    ensures FilteredProjects(FilteredProjects(projects, selected), selected) == FilteredProjects(projects, selected)
  {
    if selected != AllCategory {
      WithCategoryKeepsUniform(WithCategory(projects, selected), selected);
    }
  }

  /** A category no project carries gives an empty list, not an error. */
  lemma {:induction false} UnmatchedCategoryIsEmpty(projects: seq<Project>, selected: string)
    requires selected != AllCategory
    requires forall i :: 0 <= i < |projects| ==> projects[i].category != selected
    ensures FilteredProjects(projects, selected) == []
  {
    if projects != [] {
      UnmatchedCategoryIsEmpty(projects[..|projects| - 1], selected);
    }
  }

  /**
   * In a well-formed catalog every project is listed under exactly one of the
   * real category buttons (and under "All").
   */
  lemma EachProjectUnderOneCategory(projects: seq<Project>, categories: seq<string>, i: nat)
    requires WellFormedCatalog(projects, categories)
    requires i < |projects|
    ensures projects[i] in FilteredProjects(projects, AllCategory)
    ensures forall c :: c in categories[1..] ==>
              (projects[i] in FilteredProjects(projects, c) <==> c == projects[i].category)
  {
  }
}
