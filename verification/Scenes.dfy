/** Splitting a script into lines that know their scene. A line arrives with what each heading pattern says of it. */
module Scenes {
  import opened Entities
  import opened Keyed

  /** The patterns are tried independently; a captured number may be unreadable (None inside). */
  datatype Line = Line(
    text: string, blockquote: bool,
    oneLine: Option<(Option<nat>, Option<nat>)>, oneLineEn: Option<(nat, nat)>,
    episode: Option<Option<nat>>, episodeEn: Option<nat>,
    section: bool, slug: bool, numbered: Option<Option<nat>>)

  datatype Scene = Scene(quote: string, episode: Option<nat>, scene: Option<nat>, line: nat)

  // ----------------------------------------------------------------- specification

  /** One-line headings in Chinese do not count here: they alone leave a document without episodes. */
  predicate EpisodeHeading(l: Line) { l.episode.Some? || l.episodeEn.Some? || l.oneLineEn.Some? }

  predicate HasEpisodes(ls: seq<Line>) { exists l | l in ls :: EpisodeHeading(l) }

  /** What a line is, once the patterns are put in order. */
  datatype Role =
    | Ignored
    | SceneHeading(episode: Option<nat>, scene: Option<nat>)
    | Opening(episode: Option<nat>)
    | Closing
    | Slug
    | SceneNumber(number: nat)
    | Plain

  function RoleOf(l: Line, has: bool): Role {
    if l.text == "" || l.blockquote then Ignored
    else if l.oneLine.Some? then SceneHeading(l.oneLine.value.0, l.oneLine.value.1)
    else if l.oneLineEn.Some? then SceneHeading(Some(l.oneLineEn.value.0), Some(l.oneLineEn.value.1))
    else if l.episode.Some? then Opening(l.episode.value)
    else if l.episodeEn.Some? then Opening(Some(l.episodeEn.value))
    else if has && l.section then Closing
    else if l.slug then Slug
    else if l.numbered.Some? && l.numbered.value.Some? then SceneNumber(l.numbered.value.value)
    else Plain
  }

  /** Headings that say which episode follows, or that none does. */
  predicate Marks(r: Role) { r.SceneHeading? || r.Opening? || r.Closing? }

  /** Lines that fix the scene number outright. */
  predicate Sets(r: Role) { Marks(r) || r.SceneNumber? }

  /** The nearest mark among the first n lines. */
  function LastMark(ls: seq<Line>, has: bool, n: nat): Option<nat>
    requires n <= |ls|
  {
    if n == 0 then None else if Marks(RoleOf(ls[n - 1], has)) then Some(n - 1) else LastMark(ls, has, n - 1)
  }

  function LastSet(ls: seq<Line>, has: bool, n: nat): Option<nat>
    requires n <= |ls|
  {
    if n == 0 then None else if Sets(RoleOf(ls[n - 1], has)) then Some(n - 1) else LastSet(ls, has, n - 1)
  }

  /** Content begins at the first episode, or at once in a document without any, and stops at other sections. */
  function Inside(ls: seq<Line>, has: bool, n: nat): bool
    requires n <= |ls|
  {
    match LastMark(ls, has, n) case None => !has case Some(j) => j < |ls| && !RoleOf(ls[j], has).Closing?
  }

  function EpisodeOf(r: Role): Option<nat> {
    match r case SceneHeading(e, _) => e case Opening(e) => e case _ => None
  }

  function SceneOf(r: Role): Option<nat> {
    match r case SceneHeading(_, s) => s case SceneNumber(s) => Some(s) case _ => None
  }

  function EpisodeAt(ls: seq<Line>, has: bool, n: nat): Option<nat>
    requires n <= |ls|
  {
    match LastMark(ls, has, n) case None => None case Some(j) => if j < |ls| then EpisodeOf(RoleOf(ls[j], has)) else None
  }

  /** Slug lines from `from` up to the n-th line. */
  function Slugs(ls: seq<Line>, has: bool, from: nat, n: nat): nat
    requires from <= n <= |ls|
  {
    if n == from then 0 else Slugs(ls, has, from, n - 1) + (if RoleOf(ls[n - 1], has).Slug? then 1 else 0)
  }

  function Counted(base: Option<nat>, slugs: nat): Option<nat> {
    if slugs == 0 then base else Some((if base.Some? then base.value else 0) + slugs)
  }

  /** The number last fixed, plus one for every slug line since. */
  function SceneAt(ls: seq<Line>, has: bool, n: nat): Option<nat>
    requires n <= |ls|
  {
    match LastSet(ls, has, n)
    case None => Counted(None, Slugs(ls, has, 0, n))
    case Some(j) => if j < n then Counted(SceneOf(RoleOf(ls[j], has)), Slugs(ls, has, j + 1, n)) else None
  }

  predicate Content(r: Role) { r.SceneHeading? || r.Slug? || r.SceneNumber? || r.Plain? }

  /** Line k is reviewed. */
  predicate Reviewed(ls: seq<Line>, has: bool, k: nat)
    requires k < |ls|
  {
    Content(RoleOf(ls[k], has)) && Inside(ls, has, k + 1)
  }

  function SceneAtLine(ls: seq<Line>, has: bool, k: nat): Scene
    requires k < |ls|
  {
    Scene(ls[k].text, EpisodeAt(ls, has, k + 1), SceneAt(ls, has, k + 1), k + 1)
  }

  function ScenesOf(ls: seq<Line>, has: bool, n: nat): seq<Scene>
    requires n <= |ls|
  {
    if n == 0 then []
    else ScenesOf(ls, has, n - 1) + (if Reviewed(ls, has, n - 1) then [SceneAtLine(ls, has, n - 1)] else [])
  }

  // ------------------------------------------------- read off the lines themselves

  predicate Blank(l: Line) { l.text == "" || l.blockquote }

  /** A heading that names scene and episode in one line, in either language. */
  predicate OneLiner(l: Line) { l.oneLine != None || l.oneLineEn != None }

  /** A heading of an episode alone. */
  predicate EpisodeOnly(l: Line) { !OneLiner(l) && (l.episode != None || l.episodeEn != None) }

  /** A section heading of a document that has episodes. */
  predicate OtherSection(l: Line, has: bool) { !OneLiner(l) && !EpisodeOnly(l) && has && l.section }

  predicate Unmarked(l: Line, has: bool) { !Blank(l) && !OneLiner(l) && !EpisodeOnly(l) && !OtherSection(l, has) }

  /** A heading that says which episode follows, or that none does. */
  predicate Heads(l: Line, has: bool) { !Blank(l) && (OneLiner(l) || EpisodeOnly(l) || OtherSection(l, has)) }

  /** A heading, or a line that numbers its scene outright. */
  predicate Fixes(l: Line, has: bool) {
    Heads(l, has) || (Unmarked(l, has) && !l.slug && l.numbered != None && l.numbered != Some(None))
  }

  /** The scene such a line names, if it names one. */
  function Named(l: Line, has: bool): Option<nat> {
    if l.oneLine.Some? then l.oneLine.value.1
    else if l.oneLineEn.Some? then Some(l.oneLineEn.value.1)
    else if Heads(l, has) || l.numbered.None? then None
    else l.numbered.value
  }

  /** The episode a heading names. */
  function EpisodeNamed(l: Line): Option<nat> {
    if l.oneLine.Some? then l.oneLine.value.0
    else if l.oneLineEn.Some? then Some(l.oneLineEn.value.0)
    else if l.episode.Some? then l.episode.value
    else l.episodeEn
  }

  lemma HeadsExactly(l: Line, has: bool)
    ensures Marks(RoleOf(l, has)) <==> Heads(l, has)
    ensures Sets(RoleOf(l, has)) <==> Fixes(l, has)
    ensures Fixes(l, has) ==> SceneOf(RoleOf(l, has)) == Named(l, has)
    ensures Heads(l, has) ==> (RoleOf(l, has).Closing? <==> OtherSection(l, has))
    ensures Heads(l, has) && !OtherSection(l, has) ==> EpisodeOf(RoleOf(l, has)) == EpisodeNamed(l)
  {
  }

  // ------------------------------------------------------------ what the marks mean

  /** The last mark is a mark, at or above, with none between. */
  lemma {:induction false} LastMarkIs(ls: seq<Line>, has: bool, n: nat)
    requires n <= |ls|
    ensures match LastMark(ls, has, n)
            case None => forall k | 0 <= k < n :: !Marks(RoleOf(ls[k], has))
            case Some(j) => j < n && Marks(RoleOf(ls[j], has)) && forall k | j < k < n :: !Marks(RoleOf(ls[k], has))
  {
    if n > 0 { LastMarkIs(ls, has, n - 1); }
  }

  lemma {:induction false} LastSetIs(ls: seq<Line>, has: bool, n: nat)
    requires n <= |ls|
    ensures match LastSet(ls, has, n)
            case None => forall k | 0 <= k < n :: !Sets(RoleOf(ls[k], has))
            case Some(j) => j < n && Sets(RoleOf(ls[j], has)) && forall k | j < k < n :: !Sets(RoleOf(ls[k], has))
  {
    if n > 0 { LastSetIs(ls, has, n - 1); }
  }

  lemma SetBound(ls: seq<Line>, has: bool, n: nat)
    requires n <= |ls|
    ensures LastSet(ls, has, n).Some? ==> LastSet(ls, has, n).value < n
  {
    LastSetIs(ls, has, n);
  }

  lemma AllHeads(ls: seq<Line>, has: bool)
    ensures forall m | 0 <= m < |ls| ::
              && (Marks(RoleOf(ls[m], has)) <==> Heads(ls[m], has))
              && (Heads(ls[m], has) ==> (RoleOf(ls[m], has).Closing? <==> OtherSection(ls[m], has)))
              && (Heads(ls[m], has) && !OtherSection(ls[m], has) ==> EpisodeOf(RoleOf(ls[m], has)) == EpisodeNamed(ls[m]))
  {
    forall m | 0 <= m < |ls|
      ensures Marks(RoleOf(ls[m], has)) <==> Heads(ls[m], has)
      ensures Heads(ls[m], has) ==> (RoleOf(ls[m], has).Closing? <==> OtherSection(ls[m], has))
      ensures Heads(ls[m], has) && !OtherSection(ls[m], has) ==> EpisodeOf(RoleOf(ls[m], has)) == EpisodeNamed(ls[m])
    {
      HeadsExactly(ls[m], has);
    }
  }

  /**
   Attribution. A reviewed line's episode is the one its nearest episode heading, at or
   above it, names, and no other section heading lies between; a line with no such
   heading is reviewed only in a document without episodes.
   */
  lemma Attribution(ls: seq<Line>, has: bool, k: nat) returns (heading: Option<nat>)
    requires k < |ls| && Reviewed(ls, has, k)
    ensures match heading
            case None =>
              && !has && EpisodeAt(ls, has, k + 1) == None
              && forall m | 0 <= m <= k :: !Heads(ls[m], has)
            case Some(j) =>
              && j <= k && Heads(ls[j], has) && !OtherSection(ls[j], has)
              && EpisodeAt(ls, has, k + 1) == EpisodeNamed(ls[j])
              && forall m | j < m <= k :: !Heads(ls[m], has)
  {
    LastMarkIs(ls, has, k + 1);
    AllHeads(ls, has);
    heading := LastMark(ls, has, k + 1);
  }

  /** Front matter, appendices, commentary and blank lines are never reviewed. */
  lemma NotReviewed(ls: seq<Line>, has: bool, j: nat, k: nat)
    requires j <= k < |ls| && Heads(ls[j], has) && OtherSection(ls[j], has)
    requires forall m | j < m <= k :: !Heads(ls[m], has)
    ensures !Reviewed(ls, has, k)
  {
    LastMarkIs(ls, has, k + 1);
    AllHeads(ls, has);
  }

  lemma FrontMatterNotReviewed(ls: seq<Line>, k: nat)
    requires k < |ls| && HasEpisodes(ls) && forall m | 0 <= m <= k :: !Heads(ls[m], true)
    ensures !Reviewed(ls, true, k)
  {
    LastMarkIs(ls, true, k + 1);
    AllHeads(ls, true);
  }

  lemma {:induction false} LinesIncrease(ls: seq<Line>, has: bool, n: nat)
    requires n <= |ls|
    ensures forall s | s in ScenesOf(ls, has, n) :: 1 <= s.line <= n
    ensures forall i, j | 0 <= i < j < |ScenesOf(ls, has, n)| :: ScenesOf(ls, has, n)[i].line < ScenesOf(ls, has, n)[j].line
  {
    if n > 0 { LinesIncrease(ls, has, n - 1); }
  }

  /** Exactly the reviewed lines are emitted, each with its own place. */
  lemma {:induction false} EmittedExactly(ls: seq<Line>, has: bool, n: nat, s: Scene)
    requires n <= |ls|
    ensures s in ScenesOf(ls, has, n) <==>
            1 <= s.line <= n && Reviewed(ls, has, s.line - 1) && s == SceneAtLine(ls, has, s.line - 1)
  {
    if n > 0 { EmittedExactly(ls, has, n - 1, s); }
  }

  /** What each kind of line is taken for, and the numbers it carries. */
  lemma RoleExactly(l: Line, has: bool)
    ensures var r := RoleOf(l, has);
            && (r.Ignored? <==> Blank(l))
            && (r.SceneHeading? <==> !Blank(l) && OneLiner(l))
            && (r.SceneHeading? && l.oneLine.Some? ==> (r.episode, r.scene) == l.oneLine.value)
            && (r.SceneHeading? && l.oneLine.None? ==> r.episode == Some(l.oneLineEn.value.0) && r.scene == Some(l.oneLineEn.value.1))
            && (r.Opening? <==> !Blank(l) && EpisodeOnly(l))
            && (r.Opening? ==> r.episode == if l.episode.Some? then l.episode.value else l.episodeEn)
            && (r.Closing? <==> !Blank(l) && OtherSection(l, has))
            && (r.Slug? <==> Unmarked(l, has) && l.slug)
            && (forall n: nat :: r == SceneNumber(n) <==> Unmarked(l, has) && !l.slug && l.numbered == Some(Some(n)))
            && (r.Plain? <==> Unmarked(l, has) && !l.slug && (l.numbered == None || l.numbered == Some(None)))
  {
  }

  /** A document has episodes when some line heads one; a one-line Chinese heading alone does not count. */
  lemma HasEpisodesExactly(ls: seq<Line>)
    ensures !HasEpisodes(ls) <==>
            forall i | 0 <= i < |ls| :: ls[i].episode == None && ls[i].episodeEn == None && ls[i].oneLineEn == None
  {
    if HasEpisodes(ls) {
      var l :| l in ls && EpisodeHeading(l);
      var i :| 0 <= i < |ls| && ls[i] == l;
      assert ls[i].episode != None || ls[i].episodeEn != None || ls[i].oneLineEn != None;
    } else {
      forall i | 0 <= i < |ls| ensures ls[i].episode == None && ls[i].episodeEn == None && ls[i].oneLineEn == None {
        assert !EpisodeHeading(ls[i]);
      }
    }
  }

  /**
   Which lines are reviewed: not blank, not quoted, and neither an episode's nor another
   section's heading; and the nearest heading at or above opens an episode, or there is
   none and the document has no episodes.
   */
  lemma ReviewedExactly(ls: seq<Line>, has: bool, k: nat)
    requires k < |ls|
    ensures Reviewed(ls, has, k) <==>
            && !Blank(ls[k]) && !EpisodeOnly(ls[k]) && !OtherSection(ls[k], has)
            && (if forall m | 0 <= m <= k :: !Heads(ls[m], has) then !has
                else exists j: nat :: Governs(ls, has, j, k) && !OtherSection(ls[j], has))
  {
    LastMarkIs(ls, has, k + 1);
    AllHeads(ls, has);
    RoleExactly(ls[k], has);
    match LastMark(ls, has, k + 1)
    case None =>
    case Some(j) =>
      RoleExactly(ls[j], has);
      assert Governs(ls, has, j, k);
      forall i: nat | Governs(ls, has, i, k) ensures i == j {}
  }

  /** Line `j` is the nearest heading of an episode or a section at or above line `k`. */
  ghost predicate Governs(ls: seq<Line>, has: bool, j: nat, k: nat) {
    && j <= k < |ls| && Heads(ls[j], has) && forall m | j < m <= k :: !Heads(ls[m], has)
  }

  function SlugFrom(ls: seq<Line>, has: bool, from: nat): nat -> bool {
    (m: nat) => from <= m < |ls| && Unmarked(ls[m], has) && ls[m].slug
  }

  lemma {:induction false} SlugsAre(ls: seq<Line>, has: bool, from: nat, n: nat)
    requires from <= n <= |ls|
    ensures Slugs(ls, has, from, n) == |Among(n, SlugFrom(ls, has, from))|
  {
    if n == from {
      assert Among(n, SlugFrom(ls, has, from)) == {};
    } else {
      SlugsAre(ls, has, from, n - 1);
      RoleExactly(ls[n - 1], has);
      AmongMore(n - 1, SlugFrom(ls, has, from));
    }
  }

  /** The scene of a line: the number last fixed at or above it, and one more for every slug line since. */
  lemma SceneExactly(ls: seq<Line>, has: bool, j: nat, k: nat)
    requires j <= k < |ls| && Fixes(ls[j], has) && forall m | j < m <= k :: !Fixes(ls[m], has)
    ensures var since := |Among(k + 1, SlugFrom(ls, has, j + 1))|;
            SceneAt(ls, has, k + 1) ==
              if since == 0 then Named(ls[j], has)
              else match Named(ls[j], has) case Some(n) => Some(n + since) case None => Some(since)
  {
    LastSetIs(ls, has, k + 1);
    SlugsAre(ls, has, j + 1, k + 1);
    forall m | j <= m <= k
      ensures Sets(RoleOf(ls[m], has)) <==> Fixes(ls[m], has)
      ensures Fixes(ls[m], has) ==> SceneOf(RoleOf(ls[m], has)) == Named(ls[m], has)
    {
      HeadsExactly(ls[m], has);
    }
  }

  // -------------------------------------------------------------------- the loop

  lemma SceneStep(ls: seq<Line>, has: bool, n: nat)
    requires n < |ls|
    ensures var r := RoleOf(ls[n], has);
            SceneAt(ls, has, n + 1) ==
              if Sets(r) then SceneOf(r)
              else if r.Slug? then Counted(SceneAt(ls, has, n), 1)
              else SceneAt(ls, has, n)
  {
    var r := RoleOf(ls[n], has);
    SetBound(ls, has, n);
    if Sets(r) {
      assert LastSet(ls, has, n + 1) == Some(n) && Slugs(ls, has, n + 1, n + 1) == 0;
    } else {
      assert LastSet(ls, has, n + 1) == LastSet(ls, has, n);
    }
  }

  method SplitScenes(ls: seq<Line>) returns (scenes: seq<Scene>)
    ensures scenes == ScenesOf(ls, HasEpisodes(ls), |ls|)
  {
    var hasEpisodes := HasEpisodes(ls);
    scenes := [];
    var episode: Option<nat>, scene: Option<nat> := None, None;
    var started := !hasEpisodes;
    for i := 0 to |ls|
      invariant started == Inside(ls, hasEpisodes, i)
      invariant episode == EpisodeAt(ls, hasEpisodes, i)
      invariant started ==> scene == SceneAt(ls, hasEpisodes, i)
      invariant scenes == ScenesOf(ls, hasEpisodes, i)
    {
      var l := ls[i];
      SceneStep(ls, hasEpisodes, i);
      LastMarkIs(ls, hasEpisodes, i);
      if l.text == "" || l.blockquote { continue; }
      if l.oneLine.Some? {
        episode, scene, started := l.oneLine.value.0, l.oneLine.value.1, true;
      } else if l.oneLineEn.Some? {
        episode, scene, started := Some(l.oneLineEn.value.0), Some(l.oneLineEn.value.1), true;
      } else if l.episode.Some? {
        episode, scene, started := l.episode.value, None, true;
        continue;
      } else if l.episodeEn.Some? {
        episode, scene, started := Some(l.episodeEn.value), None, true;
        continue;
      } else if hasEpisodes && l.section {
        episode, scene, started := None, None, false;
        continue;
      } else if started && l.slug {
        scene := Some((if scene.Some? then scene.value else 0) + 1);
      } else if started {
        if l.numbered.Some? && l.numbered.value.Some? { scene := l.numbered.value; }
      }
      if !started { continue; }
      scenes := scenes + [Scene(l.text, episode, scene, i + 1)];
    }
  }
}
