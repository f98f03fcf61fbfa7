/** One proposed finding per category and scene, from the pattern rules and then from a model's hits. */
module ScriptReview {
  import opened Entities
  import opened Scenes
  import F = Findings

  datatype Rule = Rule(category: string, patterns: seq<string>, expertPending: bool)

  type Place = (string, Option<nat>, Option<nat>)

  datatype Proposed = Proposed(category: string, scene: Scene, severity: Severity, matchLines: seq<nat>)

  predicate Matches(r: Rule, s: Scene) { exists p | p in r.patterns :: F.Occurs(p, s.quote) }

  function PlaceOf(category: string, s: Scene): Place { (category, s.episode, s.scene) }

  function PlaceIn(p: Proposed): Place { PlaceOf(p.category, p.scene) }

  function Propose(r: Rule, s: Scene): Proposed {
    Proposed(r.category, s, if r.expertPending then NeedsHuman else CoReviewRequired, if s.line > 0 then [s.line] else [])
  }

  /** A finding says what one rule says of one line it matches: its category, and human eyes where the rule asks for experts. */
  ghost predicate SaidBy(p: Proposed, rules: seq<Rule>) {
    exists r :: r in rules && Matches(r, p.scene) && p.category == r.category
                && (p.severity == NeedsHuman <==> r.expertPending) && (p.severity == CoReviewRequired <==> !r.expertPending)
  }

  /** A rule matches a line that has one of its patterns in it. */
  lemma MatchesExactly(r: Rule, s: Scene)
    ensures Matches(r, s) <==> exists p :: p in r.patterns && F.Part(p, s.quote)
  {
    forall p ensures F.Part(p, s.quote) <==> F.Occurs(p, s.quote) { F.PartExactly(p, s.quote); }
  }

  /** Some rule of the place's category matches a line of the place. */
  predicate Hits(rules: seq<Rule>, s: Scene, at: Place) {
    exists r | r in rules :: Matches(r, s) && PlaceOf(r.category, s) == at
  }

  ghost predicate OnePerPlace(ps: seq<Proposed>) {
    forall i, j | 0 <= i < j < |ps| :: PlaceIn(ps[i]) != PlaceIn(ps[j])
  }

  function Index(ps: seq<Proposed>, at: Place): (i: nat)
    ensures i <= |ps|
    ensures i < |ps| ==> PlaceIn(ps[i]) == at
    ensures forall j | 0 <= j < i :: PlaceIn(ps[j]) != at
  {
    if ps == [] then 0 else if PlaceIn(ps[0]) == at then 0 else 1 + Index(ps[1..], at)
  }

  function LineSet(lines: seq<nat>): set<nat> { set n | n in lines }

  /** The lines recorded for a place; none when it has no finding. */
  function LinesOf(ps: seq<Proposed>, at: Place): set<nat> {
    var i := Index(ps, at); if i < |ps| then LineSet(ps[i].matchLines) else {}
  }

  predicate Present(ps: seq<Proposed>, at: Place) { Index(ps, at) < |ps| }

  /** One rule meeting one line. */
  function AddHit(ps: seq<Proposed>, r: Rule, s: Scene): seq<Proposed> {
    if !Matches(r, s) then ps
    else
      var i := Index(ps, PlaceOf(r.category, s));
      if i == |ps| then ps + [Propose(r, s)]
      else if s.line > 0 then ps[i := ps[i].(matchLines := ps[i].matchLines + [s.line])] else ps
  }

  lemma IndexUnique(ps: seq<Proposed>, at: Place, i: nat)
    requires i <= |ps| && (i < |ps| ==> PlaceIn(ps[i]) == at) && forall j | 0 <= j < i :: PlaceIn(ps[j]) != at
    ensures Index(ps, at) == i
  {
  }

  lemma AddHitEffect(ps: seq<Proposed>, r: Rule, s: Scene, at: Place)
    requires OnePerPlace(ps) && s.line > 0
    ensures OnePerPlace(AddHit(ps, r, s))
    ensures var hit := Matches(r, s) && PlaceOf(r.category, s) == at;
            && LinesOf(AddHit(ps, r, s), at) == LinesOf(ps, at) + (if hit then {s.line} else {})
            && (Present(AddHit(ps, r, s), at) <==> Present(ps, at) || hit)
  {
    if Matches(r, s) {
      var i := Index(ps, PlaceOf(r.category, s));
      var k := Index(ps, at);
      var after := AddHit(ps, r, s);
      if i == |ps| {
        IndexUnique(after, at, if k < |ps| then k else if PlaceOf(r.category, s) == at then |ps| else |ps| + 1);
      } else {
        IndexUnique(after, at, k);
      }
    }
  }

  // ------------------------------------------------------------- the pattern stage

  /** Every rule against one line. */
  method AddScene(grouped: seq<Proposed>, rules: seq<Rule>, s: Scene) returns (after: seq<Proposed>)
    requires OnePerPlace(grouped) && s.line > 0
    ensures OnePerPlace(after)
    ensures forall at :: LinesOf(after, at) == LinesOf(grouped, at) + (if Hits(rules, s, at) then {s.line} else {})
    ensures forall at :: Present(after, at) <==> Present(grouped, at) || Hits(rules, s, at)
    ensures forall p | p in after :: (exists q | q in grouped :: q.scene == p.scene) || p.scene == s
    ensures AllSaid(grouped, rules) ==> AllSaid(after, rules)
  {
    after := grouped;
    for i := 0 to |rules|
      invariant OnePerPlace(after)
      invariant forall at :: LinesOf(after, at) == LinesOf(grouped, at) + (if Hits(rules[..i], s, at) then {s.line} else {})
      invariant forall at :: Present(after, at) <==> Present(grouped, at) || Hits(rules[..i], s, at)
      invariant forall p | p in after :: (exists q | q in grouped :: q.scene == p.scene) || p.scene == s
      invariant AllSaid(grouped, rules) ==> AllSaid(after, rules)
    {
      var r := rules[i];
      var before := after;
      OneRule(grouped, before, rules, i, s);
      if Matches(r, s) {
        var at := PlaceOf(r.category, s);
        var k := Index(after, at);
        if k == |after| {
          after := after + [Propose(r, s)];
        } else {
          after := after[k := after[k].(matchLines := after[k].matchLines + [s.line])];
        }
      }
      assert after == AddHit(before, r, s);
      ScenesKept(before, r, s);
      SaidKept(before, r, s, rules);
    }
    assert rules[..|rules|] == rules;
  }

  /** What one more rule adds, place by place. */
  lemma OneRule(grouped: seq<Proposed>, before: seq<Proposed>, rules: seq<Rule>, i: nat, s: Scene)
    requires OnePerPlace(before) && s.line > 0 && i < |rules|
    requires forall at :: LinesOf(before, at) == LinesOf(grouped, at) + (if Hits(rules[..i], s, at) then {s.line} else {})
    requires forall at :: Present(before, at) <==> Present(grouped, at) || Hits(rules[..i], s, at)
    ensures var after := AddHit(before, rules[i], s);
            && OnePerPlace(after)
            && (forall at :: LinesOf(after, at) == LinesOf(grouped, at) + (if Hits(rules[..i + 1], s, at) then {s.line} else {}))
            && (forall at :: Present(after, at) <==> Present(grouped, at) || Hits(rules[..i + 1], s, at))
  {
    var r := rules[i];
    var after := AddHit(before, r, s);
    AddHitEffect(before, r, s, PlaceOf(r.category, s));
    forall at
      ensures LinesOf(after, at) == LinesOf(grouped, at) + (if Hits(rules[..i + 1], s, at) then {s.line} else {})
      ensures Present(after, at) <==> Present(grouped, at) || Hits(rules[..i + 1], s, at)
    {
      AddHitEffect(before, r, s, at);
      HitsStep(rules, i, s, at);
    }
  }

  lemma HitsStep(rules: seq<Rule>, i: nat, s: Scene, at: Place)
    requires i < |rules|
    ensures Hits(rules[..i + 1], s, at) <==> Hits(rules[..i], s, at) || (Matches(rules[i], s) && PlaceOf(rules[i].category, s) == at)
  {
    assert rules[..i + 1] == rules[..i] + [rules[i]];
    assert forall r | r in rules[..i + 1] :: r in rules[..i] || r == rules[i];
    assert forall r | r in rules[..i] :: r in rules[..i + 1];
    assert rules[i] in rules[..i + 1];
  }

  lemma ScenesKept(ps: seq<Proposed>, r: Rule, s: Scene)
    ensures forall p | p in AddHit(ps, r, s) :: (exists q | q in ps :: q.scene == p.scene) || p.scene == s
  {
    forall p | p in AddHit(ps, r, s) ensures (exists q | q in ps :: q.scene == p.scene) || p.scene == s {
      var n :| 0 <= n < |AddHit(ps, r, s)| && AddHit(ps, r, s)[n] == p;
      if n < |ps| { assert ps[n] in ps && ps[n].scene == p.scene; }
    }
  }

  ghost predicate AllSaid(ps: seq<Proposed>, rules: seq<Rule>) { forall p | p in ps :: SaidBy(p, rules) }

  lemma SaidKept(ps: seq<Proposed>, r: Rule, s: Scene, rules: seq<Rule>)
    requires r in rules
    ensures AllSaid(ps, rules) ==> AllSaid(AddHit(ps, r, s), rules)
  {
    if AllSaid(ps, rules) {
      forall p | p in AddHit(ps, r, s) ensures SaidBy(p, rules) {
        var n :| 0 <= n < |AddHit(ps, r, s)| && AddHit(ps, r, s)[n] == p;
        if n < |ps| { LinesAside(ps[n], p, rules); } else { assert p == Propose(r, s); }
      }
    }
  }

  lemma LinesAside(q: Proposed, p: Proposed, rules: seq<Rule>)
    requires p.(matchLines := q.matchLines) == q && SaidBy(q, rules)
    ensures SaidBy(p, rules)
  {
    var r :| r in rules && Matches(r, q.scene) && q.category == r.category
             && (q.severity == NeedsHuman <==> r.expertPending) && (q.severity == CoReviewRequired <==> !r.expertPending);
    assert Matches(r, p.scene);
  }

  /** The matching lines of a place, over a whole script. */
  function MatchedLines(scenes: seq<Scene>, rules: seq<Rule>, at: Place): set<nat> {
    set s | s in scenes && Hits(rules, s, at) :: s.line
  }

  ghost predicate FromScenes(ps: seq<Proposed>, scenes: seq<Scene>) { forall p | p in ps :: p.scene in scenes }

  lemma MatchedStep(scenes: seq<Scene>, i: nat, rules: seq<Rule>, at: Place)
    requires i < |scenes|
    ensures MatchedLines(scenes[..i + 1], rules, at) ==
            MatchedLines(scenes[..i], rules, at) + (if Hits(rules, scenes[i], at) then {scenes[i].line} else {})
  {
    assert scenes[..i + 1] == scenes[..i] + [scenes[i]];
    assert forall s | s in scenes[..i + 1] :: s in scenes[..i] || s == scenes[i];
    assert forall s | s in scenes[..i] :: s in scenes[..i + 1];
    assert scenes[i] in scenes[..i + 1];
  }

  ghost predicate Numbered(scenes: seq<Scene>) { forall s | s in scenes :: s.line > 0 }

  /**
   The pattern stage: one finding per category, episode and scene, whose match lines
   are exactly the lines of that scene some rule of the category matches.
   */
  method ReviewPatterns(scenes: seq<Scene>, rules: seq<Rule>) returns (grouped: seq<Proposed>)
    requires Numbered(scenes)
    ensures OnePerPlace(grouped) && FromScenes(grouped, scenes)
    ensures forall at :: LinesOf(grouped, at) == MatchedLines(scenes, rules, at)
    ensures forall at :: Present(grouped, at) <==> MatchedLines(scenes, rules, at) != {}
    ensures AllSaid(grouped, rules)
  {
    grouped := [];
    for i := 0 to |scenes|
      invariant OnePerPlace(grouped) && FromScenes(grouped, scenes)
      invariant forall at :: LinesOf(grouped, at) == MatchedLines(scenes[..i], rules, at)
      invariant forall at :: Present(grouped, at) <==> MatchedLines(scenes[..i], rules, at) != {}
      invariant AllSaid(grouped, rules)
    {
      assert scenes[i] in scenes;
      ghost var before := grouped;
      forall at ensures MatchedLines(scenes[..i + 1], rules, at) ==
                        MatchedLines(scenes[..i], rules, at) + (if Hits(rules, scenes[i], at) then {scenes[i].line} else {})
      {
        MatchedStep(scenes, i, rules, at);
      }
      grouped := AddScene(grouped, rules, scenes[i]);
      ghost var after := grouped;
      forall p | p in after ensures p.scene in scenes {
        if p.scene != scenes[i] { var q :| q in before && q.scene == p.scene; }
      }
    }
    assert scenes[..|scenes|] == scenes;
  }

  // ------------------------------------------------------------- the semantic stage

  datatype ModelHit = ModelHit(category: string, quote: string)

  function LastRule(rules: seq<Rule>, category: string): Option<Rule> {
    if rules == [] then None
    else if rules[|rules| - 1].category == category then Some(rules[|rules| - 1])
    else LastRule(rules[..|rules| - 1], category)
  }

  function Joined(scenes: seq<Scene>): string {
    if scenes == [] then "" else if |scenes| == 1 then scenes[0].quote else scenes[0].quote + "\n" + Joined(scenes[1..])
  }

  /** The first scene the quote is part of, or that is part of the quote. */
  function SceneFor(quote: string, scenes: seq<Scene>): Option<Scene> {
    if scenes == [] then None
    else if F.Occurs(quote, scenes[0].quote) || F.Occurs(scenes[0].quote, quote) then Some(scenes[0])
    else SceneFor(quote, scenes[1..])
  }

  lemma {:induction false} SceneForIsThere(quote: string, scenes: seq<Scene>)
    ensures SceneFor(quote, scenes).Some? ==> SceneFor(quote, scenes).value in scenes
    decreases |scenes|
  {
    if scenes != [] { SceneForIsThere(quote, scenes[1..]); }
  }

  lemma {:induction false} RuleHasCategory(rules: seq<Rule>, category: string)
    ensures LastRule(rules, category).Some? ==> LastRule(rules, category).value.category == category
  {
    if rules != [] { RuleHasCategory(rules[..|rules| - 1], category); }
  }

  /** The finding a hit stands for: of a known category, quoting the script, on a scene that has the quote. */
  function Placed(h: ModelHit, scenes: seq<Scene>, rules: seq<Rule>): Option<Proposed> {
    var rule, quote := LastRule(rules, Strip(h.category)), Strip(h.quote);
    if rule.None? || quote == "" || !F.Occurs(quote, Joined(scenes)) then None
    else match SceneFor(quote, scenes) case None => None case Some(s) => Some(Propose(rule.value, s))
  }

  /** The first line that has the quote in it, or is itself part of the quote. */
  ghost predicate FirstWith(quote: string, scenes: seq<Scene>, s: Scene) {
    exists i :: 0 <= i < |scenes| && scenes[i] == s && (F.Part(quote, s.quote) || F.Part(s.quote, quote))
                && forall j | 0 <= j < i :: !F.Part(quote, scenes[j].quote) && !F.Part(scenes[j].quote, quote)
  }

  lemma {:induction false} SceneForExactly(quote: string, scenes: seq<Scene>, s: Scene)
    ensures SceneFor(quote, scenes) == Some(s) <==> FirstWith(quote, scenes, s)
    decreases |scenes|
  {
    if scenes != [] {
      var head, tail := scenes[0], scenes[1..];
      F.PartExactly(quote, head.quote);
      F.PartExactly(head.quote, quote);
      if SceneFor(quote, scenes) != Some(head) || head != s {
        SceneForExactly(quote, tail, s);
      }
      if !F.Part(quote, head.quote) && !F.Part(head.quote, quote) {
        SceneForExactly(quote, tail, s);
        if FirstWith(quote, tail, s) { FirstOneLater(quote, scenes, s); }
        if FirstWith(quote, scenes, s) { FirstOneEarlier(quote, scenes, s); }
      }
    }
  }

  lemma FirstOneLater(quote: string, scenes: seq<Scene>, s: Scene)
    requires scenes != [] && FirstWith(quote, scenes[1..], s)
    requires !F.Part(quote, scenes[0].quote) && !F.Part(scenes[0].quote, quote)
    ensures FirstWith(quote, scenes, s)
  {
    var tail := scenes[1..];
    var i :| 0 <= i < |tail| && tail[i] == s && (F.Part(quote, s.quote) || F.Part(s.quote, quote))
             && forall j | 0 <= j < i :: !F.Part(quote, tail[j].quote) && !F.Part(tail[j].quote, quote);
    assert scenes[i + 1] == s;
    forall j | 0 <= j < i + 1 ensures !F.Part(quote, scenes[j].quote) && !F.Part(scenes[j].quote, quote) {
      if j > 0 { assert scenes[j] == tail[j - 1]; }
    }
  }

  lemma FirstOneEarlier(quote: string, scenes: seq<Scene>, s: Scene)
    requires scenes != [] && FirstWith(quote, scenes, s)
    requires !F.Part(quote, scenes[0].quote) && !F.Part(scenes[0].quote, quote)
    ensures FirstWith(quote, scenes[1..], s)
  {
    var tail := scenes[1..];
    var i :| 0 <= i < |scenes| && scenes[i] == s && (F.Part(quote, s.quote) || F.Part(s.quote, quote))
             && forall j | 0 <= j < i :: !F.Part(quote, scenes[j].quote) && !F.Part(scenes[j].quote, quote);
    assert tail[i - 1] == s;
    forall j | 0 <= j < i - 1 ensures !F.Part(quote, tail[j].quote) && !F.Part(tail[j].quote, quote) {
      assert tail[j] == scenes[j + 1];
    }
  }

  /** The rule of a category, of several the last. */
  ghost predicate RuleFor(rules: seq<Rule>, category: string, r: Rule) {
    exists i :: 0 <= i < |rules| && rules[i] == r && r.category == category
                && forall j | i < j < |rules| :: rules[j].category != category
  }

  lemma {:induction false} LastRuleExactly(rules: seq<Rule>, category: string, r: Rule)
    ensures LastRule(rules, category) == Some(r) <==> RuleFor(rules, category, r)
  {
    if rules != [] && rules[|rules| - 1].category != category {
      var front := rules[..|rules| - 1];
      LastRuleExactly(front, category, r);
      if i :| 0 <= i < |front| && front[i] == r && r.category == category && forall j | i < j < |front| :: front[j].category != category {
        assert rules[i] == r;
        forall j | i < j < |rules| ensures rules[j].category != category { if j < |front| { assert rules[j] == front[j]; } }
      }
      if i :| 0 <= i < |rules| && rules[i] == r && r.category == category && forall j | i < j < |rules| :: rules[j].category != category {
        assert front[i] == r;
        forall j | i < j < |front| ensures front[j].category != category { assert front[j] == rules[j]; }
      }
    }
  }

  /**
   A hit stands for a finding exactly when its category has a rule, its quote is text of the
   script, and some line has the quote; the finding is that rule's, on the first such line.
   */
  lemma PlacedExactly(h: ModelHit, scenes: seq<Scene>, rules: seq<Rule>, p: Proposed)
    ensures Placed(h, scenes, rules) == Some(p) <==>
            && F.Stands(Strip(h.quote), Joined(scenes)) && FirstWith(Strip(h.quote), scenes, p.scene)
            && exists r :: RuleFor(rules, Strip(h.category), r) && p.category == r.category
                           && p.severity == (if r.expertPending then NeedsHuman else CoReviewRequired)
                           && p.matchLines == (if p.scene.line == 0 then [] else [p.scene.line])
  {
    var category, quote := Strip(h.category), Strip(h.quote);
    F.StandsExactly(quote, Joined(scenes));
    SceneForExactly(quote, scenes, p.scene);
    var rule := LastRule(rules, category);
    forall r ensures rule == Some(r) <==> RuleFor(rules, category, r) { LastRuleExactly(rules, category, r); }
  }

  ghost predicate KnownQuote(h: ModelHit, scenes: seq<Scene>, rules: seq<Rule>) {
    (exists r :: RuleFor(rules, Strip(h.category), r)) && F.Stands(Strip(h.quote), Joined(scenes))
  }

  /**
   What becomes of a hit. One of a known category quoting the script is placed on a line that
   has the quote, or else discarded under its category; any other is discarded under the
   category it names, and forgotten when it names none.
   */
  lemma HitFate(h: ModelHit, scenes: seq<Scene>, rules: seq<Rule>)
    ensures var somewhere := exists s :: FirstWith(Strip(h.quote), scenes, s);
            && (Placed(h, scenes, rules).Some? <==> KnownQuote(h, scenes, rules) && somewhere)
            && (forall c :: DroppedAs(h, c, scenes, rules) <==>
                  c == Strip(h.category) && (if KnownQuote(h, scenes, rules) then !somewhere else c != ""))
  {
    var category, quote := Strip(h.category), Strip(h.quote);
    F.StandsExactly(quote, Joined(scenes));
    var rule, scene := LastRule(rules, category), SceneFor(quote, scenes);
    forall r ensures rule == Some(r) <==> RuleFor(rules, category, r) { LastRuleExactly(rules, category, r); }
    forall s ensures scene == Some(s) <==> FirstWith(quote, scenes, s) { SceneForExactly(quote, scenes, s); }
    assert rule.Some? <==> exists r :: RuleFor(rules, category, r) by {
      if rule.Some? { assert RuleFor(rules, category, rule.value); }
    }
    assert scene.Some? <==> exists s :: FirstWith(quote, scenes, s) by {
      if scene.Some? { assert FirstWith(quote, scenes, scene.value); }
    }
  }

  /** Every line is part of the script the quotes are looked up in. */
  lemma {:induction false} LinesAreJoined(scenes: seq<Scene>, i: nat)
    requires i < |scenes|
    ensures F.Part(scenes[i].quote, Joined(scenes))
    decreases |scenes|
  {
    if i == 0 {
      var rest := if |scenes| == 1 then "" else "\n" + Joined(scenes[1..]);
      assert "" + scenes[0].quote + rest == Joined(scenes);
    } else {
      LinesAreJoined(scenes[1..], i - 1);
      var before: string, after: string :| before + scenes[i].quote + after == Joined(scenes[1..]);
      assert (scenes[0].quote + "\n" + before) + scenes[i].quote + after == Joined(scenes);
    }
  }

  ghost predicate HasPlace(ps: seq<Proposed>, at: Place) { exists p :: p in ps && PlaceIn(p) == at }

  ghost predicate Recorded(h: ModelHit, ps: seq<Proposed>, scenes: seq<Scene>, rules: seq<Rule>) {
    Placed(h, scenes, rules).Some? ==> HasPlace(ps, PlaceIn(Placed(h, scenes, rules).value))
  }

  ghost predicate FromHit(p: Proposed, hits: seq<ModelHit>, scenes: seq<Scene>, rules: seq<Rule>) {
    exists h :: h in hits && Placed(h, scenes, rules) == Some(p)
  }

  /** Discarded under its category: a known quote no single scene has, or any other hit that names a category. */
  predicate DroppedAs(h: ModelHit, c: string, scenes: seq<Scene>, rules: seq<Rule>) {
    && Placed(h, scenes, rules).None? && Strip(h.category) == c
    && (c != "" || (LastRule(rules, c).Some? && Strip(h.quote) != "" && F.Occurs(Strip(h.quote), Joined(scenes))))
  }

  ghost predicate Dropped(c: string, hits: seq<ModelHit>, scenes: seq<Scene>, rules: seq<Rule>) {
    exists h :: h in hits && DroppedAs(h, c, scenes, rules)
  }

  lemma HitStep(hits: seq<ModelHit>, i: nat, scenes: seq<Scene>, rules: seq<Rule>)
    requires i < |hits|
    ensures forall p :: FromHit(p, hits[..i + 1], scenes, rules) <==>
                          FromHit(p, hits[..i], scenes, rules) || Placed(hits[i], scenes, rules) == Some(p)
    ensures forall c :: Dropped(c, hits[..i + 1], scenes, rules) <==>
                          Dropped(c, hits[..i], scenes, rules) || DroppedAs(hits[i], c, scenes, rules)
  {
    assert hits[..i + 1] == hits[..i] + [hits[i]];
    assert forall h :: h in hits[..i + 1] <==> h in hits[..i] || h == hits[i];
  }

  lemma PlaceStays(ps: seq<Proposed>, p: Proposed, at: Place)
    ensures HasPlace(ps + [p], at) <==> HasPlace(ps, at) || PlaceIn(p) == at
  {
    assert forall q :: q in ps + [p] <==> q in ps || q == p;
  }

  /**
   The model's hits after the patterns: a hit that can be placed has a finding at its
   place, a new finding stands for such a hit, and the categories answered as
   discarded are those of the hits that cannot be placed.
   */
  method SemanticPass(found: seq<Proposed>, scenes: seq<Scene>, rules: seq<Rule>, hits: seq<ModelHit>)
    returns (all: seq<Proposed>, discarded: seq<string>)
    requires OnePerPlace(found) && FromScenes(found, scenes)
    ensures OnePerPlace(all) && FromScenes(all, scenes)
    ensures found <= all
    ensures forall h | h in hits :: Recorded(h, all, scenes, rules)
    ensures forall p | p in all[|found|..] :: FromHit(p, hits, scenes, rules)
    ensures forall c :: c in discarded <==> Dropped(c, hits, scenes, rules)
  {
    all, discarded := found, [];
    var seen: set<Place> := set p | p in found :: PlaceIn(p);
    var document := Joined(scenes);
    for i := 0 to |hits|
      invariant OnePerPlace(all) && FromScenes(all, scenes) && found <= all
      invariant forall at :: at in seen <==> HasPlace(all, at)
      invariant forall k | 0 <= k < i :: Recorded(hits[k], all, scenes, rules)
      invariant forall p | p in all[|found|..] :: FromHit(p, hits[..i], scenes, rules)
      invariant forall c :: c in discarded <==> Dropped(c, hits[..i], scenes, rules)
    {
      HitStep(hits, i, scenes, rules);
      var category, quote := Strip(hits[i].category), Strip(hits[i].quote);
      var rule := LastRule(rules, category);
      assert forall c | DroppedAs(hits[i], c, scenes, rules) :: c == category;
      if rule.None? || quote == "" || !F.Occurs(quote, document) {
        assert DroppedAs(hits[i], category, scenes, rules) <==> category != "";
        if category != "" { discarded := discarded + [category]; }
        continue;
      }
      var scene := SceneFor(quote, scenes);
      SceneForIsThere(quote, scenes);
      assert DroppedAs(hits[i], category, scenes, rules) <==> scene.None?;
      if scene.None? { discarded := discarded + [category]; continue; }
      var place := PlaceOf(category, scene.value);
      RuleHasCategory(rules, category);
      if place in seen { continue; }
      var p := Propose(rule.value, scene.value);
      NewPlace(all, p);
      forall at ensures HasPlace(all + [p], at) <==> HasPlace(all, at) || PlaceIn(p) == at { PlaceStays(all, p, at); }
      assert (all + [p])[|found|..] == all[|found|..] + [p];
      all := all + [p];
      seen := seen + {place};
    }
    assert hits[..|hits|] == hits;
  }

  lemma NewPlace(ps: seq<Proposed>, p: Proposed)
    requires OnePerPlace(ps) && !HasPlace(ps, PlaceIn(p))
    ensures OnePerPlace(ps + [p])
  {
    forall i | 0 <= i < |ps| ensures PlaceIn(ps[i]) != PlaceIn(p) { assert ps[i] in ps; }
  }

  // ----------------------------------------------------------- into the findings

  function AsProposal(p: Proposed): F.Proposal {
    F.Proposal(p.category, p.scene.quote, p.scene.episode, p.scene.scene, LineSet(p.matchLines), p.severity)
  }

  /** Every proposed quote is a line of the script it was read from. */
  lemma ProposalsQuote(ls: seq<Line>, document: string, ps: seq<Proposed>, p: Proposed)
    requires forall l | l in ls :: F.Occurs(l.text, document)
    requires FromScenes(ps, ScenesOf(ls, HasEpisodes(ls), |ls|)) && p in ps
    ensures AsProposal(p).quote != "" && F.Occurs(AsProposal(p).quote, document)
  {
    EmittedExactly(ls, HasEpisodes(ls), |ls|, p.scene);
    assert ls[p.scene.line - 1] in ls;
  }
}
