/**
 * The `manualChunks(id)` hook of the web front end's build configuration: it
 * decides which output bundle of the production build a module goes into.
 * Six literal pattern tests are tried in a fixed order, the first one that
 * matches the module id names the bundle, and an id that matches none of them
 * goes to the `index` bundle.
 */
module ManualChunks {
  import opened Substring

  /** The six bundles the hook can name. */
  datatype Bundle = Index | React | ReactVendor | Components | Forms | Screens

  /** The chunk name the hook returns for each bundle. */
  function ChunkName(b: Bundle): string {
    match b
    case Index => "index"
    case React => "react"
    case ReactVendor => "react-vendor"
    case Components => "components"
    case Forms => "forms"
    case Screens => "screens"
  }

  /** Stylesheets are never split off: `/\.css/`. */
  predicate IsStylesheet(id: string) {
    Contains(id, ".css")
  }

  /**
   * A versioned path of one of the three core framework packages:
   * `/\/(react|react-dom|react-router-dom)@/`. The alternation of three
   * literals matches exactly when one of the three whole patterns occurs.
   */
  predicate IsCoreFramework(id: string) {
    || Contains(id, "/react@")
    || Contains(id, "/react-dom@")
    || Contains(id, "/react-router-dom@")
  }

  /** Any other mention of the framework's name: `/react/`. */
  predicate MentionsReact(id: string) {
    Contains(id, "react")
  }

  predicate InComponents(id: string) {
    Contains(id, "src/components")
  }

  predicate InForms(id: string) {
    Contains(id, "src/forms")
  }

  predicate InScreens(id: string) {
    Contains(id, "src/screens")
  }

  /** The decision chain of `manualChunks`: the first test that matches wins. */
  function Classify(id: string): Bundle {
    if IsStylesheet(id) then Index
    else if IsCoreFramework(id) then React
    else if MentionsReact(id) then ReactVendor
    else if InComponents(id) then Components
    else if InForms(id) then Forms
    else if InScreens(id) then Screens
    else Index
  }

  /** The hook itself: every id gets one of the six chunk names. */
  function ManualChunksHook(id: string): (name: string)
    ensures name in {"index", "react", "react-vendor", "components", "forms", "screens"}
  {
    ChunkName(Classify(id))
  }

  /** Distinct bundles get distinct chunk names, so no two bundles are merged. */
  lemma ChunkNameInjective(a: Bundle, b: Bundle)
    ensures ChunkName(a) == ChunkName(b) <==> a == b
  {
  }

  /** A pattern that starts with `/react` contains `react`. */
  lemma SlashReactMentionsReact(p: string)
    requires |p| >= 6 && p[..6] == "/react"
    ensures Contains(p, "react")
  {
    ContainsSlice(p, 1, 6);
    assert p[1..6] == p[..6][1..];
  }

  /** Every core framework path also mentions the framework's name. */
  lemma CoreFrameworkMentionsReact(id: string)
    requires IsCoreFramework(id)
    ensures MentionsReact(id)
  {
    var p: string :=
      if Contains(id, "/react@") then "/react@"
      else if Contains(id, "/react-dom@") then "/react-dom@"
      else "/react-router-dom@";
    SlashReactMentionsReact(p);
    ContainsTransitive(id, p, "react");
  }

  /** A stylesheet goes to `index`, whatever else its id contains. */
  lemma StylesheetGoesToIndex(id: string)
    requires IsStylesheet(id)
    ensures Classify(id) == Index
  {
  }

  /** The `react` bundle holds exactly the non-stylesheet core framework paths. */
  lemma ReactBundleExactly(id: string)
    ensures Classify(id) == React <==> !IsStylesheet(id) && IsCoreFramework(id)
  {
  }

  /** Everything in the `react` bundle would also have passed the broader `/react/` test. */
  lemma ReactBundleMentionsReact(id: string)
    requires Classify(id) == React
    ensures MentionsReact(id)
  {
    CoreFrameworkMentionsReact(id);
  }

  /** The `react-vendor` bundle holds the other non-stylesheet ids that mention react. */
  lemma ReactVendorBundleExactly(id: string)
    ensures Classify(id) == ReactVendor
      <==> !IsStylesheet(id) && !IsCoreFramework(id) && MentionsReact(id)
  {
  }

  /**
   * Without a stylesheet, every id that mentions react goes to one of the two
   * framework bundles, whichever application directory it lies in.
   */
  lemma MentionsReactGoesToFramework(id: string)
    requires !IsStylesheet(id) && MentionsReact(id)
    ensures Classify(id) in {React, ReactVendor}
  {
  }

  /** An id that mentions react never lands in an application bundle. */
  lemma MentionsReactNeverApplication(id: string)
    requires MentionsReact(id)
    ensures Classify(id) !in {Components, Forms, Screens}
  {
  }

  /** The `components` bundle: under `src/components`, no stylesheet, no react. */
  lemma ComponentsBundleExactly(id: string)
    ensures Classify(id) == Components
      <==> !IsStylesheet(id) && !MentionsReact(id) && InComponents(id)
  {
    if !IsStylesheet(id) && !MentionsReact(id) {
      if IsCoreFramework(id) { CoreFrameworkMentionsReact(id); }
    }
  }

  /** The `forms` bundle: under `src/forms` and not taken by an earlier test. */
  lemma FormsBundleExactly(id: string)
    ensures Classify(id) == Forms
      <==> !IsStylesheet(id) && !MentionsReact(id) && !InComponents(id) && InForms(id)
  {
    if !IsStylesheet(id) && !MentionsReact(id) {
      if IsCoreFramework(id) { CoreFrameworkMentionsReact(id); }
    }
  }

  /** The `screens` bundle: under `src/screens` and not taken by an earlier test. */
  lemma ScreensBundleExactly(id: string)
    ensures Classify(id) == Screens
      <==> && !IsStylesheet(id) && !MentionsReact(id)
           && !InComponents(id) && !InForms(id) && InScreens(id)
  {
    if !IsStylesheet(id) && !MentionsReact(id) {
      if IsCoreFramework(id) { CoreFrameworkMentionsReact(id); }
    }
  }

  /**
   * The `index` bundle: stylesheets, and every id that mentions neither the
   * framework nor one of the three application directories.
   */
  lemma IndexBundleExactly(id: string)
    ensures Classify(id) == Index
      <==> || IsStylesheet(id)
           || (!MentionsReact(id) && !InComponents(id) && !InForms(id) && !InScreens(id))
  {
    if IsCoreFramework(id) { CoreFrameworkMentionsReact(id); }
  }

  /**
   * The same policy written as data: an ordered list of rules, each a test
   * made of literal alternatives and the bundle it selects.
   */
  datatype Rule = Rule(alternatives: seq<string>, bundle: Bundle)

  predicate Matches(rule: Rule, id: string) {
    exists p :: p in rule.alternatives && Contains(id, p)
  }

  const Rules: seq<Rule> := [
    Rule([".css"], Index),
    Rule(["/react@", "/react-dom@", "/react-router-dom@"], React),
    Rule(["react"], ReactVendor),
    Rule(["src/components"], Components),
    Rule(["src/forms"], Forms),
    Rule(["src/screens"], Screens)
  ]

  /** Rule `k` matches `id` and no rule before it does. */
  ghost predicate IsFirstMatch(rules: seq<Rule>, id: string, k: int) {
    && 0 <= k < |rules|
    && Matches(rules[k], id)
    && forall j | 0 <= j < k :: !Matches(rules[j], id)
  }

  /** First match wins; when no rule matches, the id goes to `index`. */
  function FirstMatch(rules: seq<Rule>, id: string): (b: Bundle)
    ensures forall k | IsFirstMatch(rules, id, k) :: b == rules[k].bundle
    ensures (forall k | 0 <= k < |rules| :: !Matches(rules[k], id)) ==> b == Index
  {
    if rules == [] then Index
    else if Matches(rules[0], id) then rules[0].bundle
    else
      var b := FirstMatch(rules[1..], id);
      assert forall k | IsFirstMatch(rules, id, k) :: k > 0 && IsFirstMatch(rules[1..], id, k - 1);
      b
  }

  /** Each rule of the list is the corresponding test of the hook. */
  lemma RuleTests(id: string)
    ensures Matches(Rules[0], id) == IsStylesheet(id)
    ensures Matches(Rules[1], id) == IsCoreFramework(id)
    ensures Matches(Rules[2], id) == MentionsReact(id)
    ensures Matches(Rules[3], id) == InComponents(id)
    ensures Matches(Rules[4], id) == InForms(id)
    ensures Matches(Rules[5], id) == InScreens(id)
  {
  }

  /** The if-chain of the hook is exactly first-match evaluation of the rule list. */
  lemma ClassifyIsFirstMatch(id: string)
    ensures Classify(id) == FirstMatch(Rules, id)
  {
    RuleTests(id);
    var k := if IsStylesheet(id) then 0
      else if IsCoreFramework(id) then 1
      else if MentionsReact(id) then 2
      else if InComponents(id) then 3
      else if InForms(id) then 4
      else if InScreens(id) then 5
      else 6;
    if k < 6 {
      assert IsFirstMatch(Rules, id, k);
    }
  }
}
