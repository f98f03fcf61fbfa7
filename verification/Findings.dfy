/** Script findings over document versions, creator decisions, and the classification alert. */
module Findings {
  import opened Entities
  import opened Keyed
  import opened MemoryStore

  datatype Proposal = Proposal(
    category: string, quote: string, episode: Option<nat>, scene: Option<nat>, lines: set<nat>, severity: Severity)

  type Key = (string, string)

  function KeyOf(f: Finding): Key { (f.category, f.quote) }

  predicate Script(f: Finding) { f.alert.None? }

  predicate OccursAt(quote: string, document: string, i: nat) {
    i + |quote| <= |document| && document[i..i + |quote|] == quote
  }

  predicate Occurs(quote: string, document: string) {
    exists i | 0 <= i <= |document| :: OccursAt(quote, document, i)
  }

  /** A prior finding whose quote is still there follows the document; one whose quote is gone was fixed. */
  predicate Follows(f: Finding, version: string, document: string) {
    f.active && f.assetVersion != version && Script(f) && f.quote != "" && Occurs(f.quote, document)
  }

  predicate Vanished(f: Finding, version: string, document: string) {
    && f.active && f.assetVersion != version && Script(f)
    && !Follows(f, version, document) && f.status.Open?
  }

  function CarryOne(f: Finding, version: string, document: string): Finding {
    if Follows(f, version, document) then f.(assetVersion := version)
    else if Vanished(f, version, document) then f.(status := SelfFixed)
    else f
  }

  predicate Seen(f: Finding, version: string, document: string) {
    (f.active && f.assetVersion == version) || Follows(f, version, document)
  }

  function Carry(findings: seq<Finding>, version: string, document: string): (r: seq<Finding>)
    ensures |r| == |findings| && forall i | 0 <= i < |r| :: r[i] == CarryOne(findings[i], version, document)
  {
    seq(|findings|, i requires 0 <= i < |findings| => CarryOne(findings[i], version, document))
  }

  function SeenKeys(findings: seq<Finding>, version: string, document: string): set<Key> {
    set f | f in findings && Seen(f, version, document) :: KeyOf(f)
  }

  lemma SeenSnoc(findings: seq<Finding>, f: Finding, version: string, document: string)
    ensures SeenKeys(findings + [f], version, document) ==
            SeenKeys(findings, version, document) + (if Seen(f, version, document) then {KeyOf(f)} else {})
  {
    assert forall g | g in findings + [f] :: g in findings || g == f;
    assert forall g | g in findings :: g in findings + [f];
    assert f in findings + [f];
  }

  /** A fresh generation retires every current script conclusion on the asset. */
  function RetireOne(f: Finding, version: string): Finding {
    if Script(f) && f.assetVersion == version && f.active then f.(active := false) else f
  }

  function Retire(findings: seq<Finding>, version: string): (r: seq<Finding>)
    ensures |r| == |findings| && forall i | 0 <= i < |r| :: r[i] == RetireOne(findings[i], version)
  {
    seq(|findings|, i requires 0 <= i < |findings| => RetireOne(findings[i], version))
  }

  function Written(p: Proposal, id: string, version: string, generation: Option<nat>): Finding {
    Finding(id, version, p.category, p.quote, p.episode, p.scene, p.lines, p.severity, None, Open, generation, true)
  }

  function ProposalKey(p: Proposal): Key { (p.category, p.quote) }

  /** The proposals kept: first of each key, and none already seen. Processed front to back. */
  function Kept(seen: set<Key>, ps: seq<Proposal>): seq<Proposal>
    decreases |ps|
  {
    if ps == [] then []
    else if ProposalKey(ps[0]) in seen then Kept(seen, ps[1..])
    else [ps[0]] + Kept(seen + {ProposalKey(ps[0])}, ps[1..])
  }

  function WriteAll(ps: seq<Proposal>, ids: nat -> string, version: string, generation: Option<nat>): (r: seq<Finding>)
    ensures |r| == |ps| && forall i | 0 <= i < |r| :: r[i] == Written(ps[i], ids(i), version, generation)
  {
    seq(|ps|, i requires 0 <= i < |ps| => Written(ps[i], ids(i), version, generation))
  }

  /** One review of one script version: carry forward, or start a fresh generation, then write what is new. */
  function Review(findings: seq<Finding>, version: string, document: string, ps: seq<Proposal>,
                  generation: Option<nat>, ids: nat -> string): seq<Finding>
  {
    if generation.None?
    then Carry(findings, version, document)
         + WriteAll(Kept(SeenKeys(findings, version, document), ps), ids, version, generation)
    else Retire(findings, version) + WriteAll(Kept({}, ps), ids, version, generation)
  }

  // ------------------------------------------------ what a new version does, finding by finding

  /** One text is part of another. */
  ghost predicate Part(text: string, whole: string) { exists before: string, after: string :: before + text + after == whole }

  lemma PartExactly(text: string, whole: string)
    ensures Part(text, whole) <==> Occurs(text, whole)
  {
    if Occurs(text, whole) {
      var i :| 0 <= i <= |whole| && OccursAt(text, whole, i);
      assert whole[..i] + text + whole[i + |text|..] == whole;
    }
    if Part(text, whole) {
      var before: string, after: string :| before + text + after == whole;
      assert OccursAt(text, whole, |before|);
    }
  }

  /** The quote is text of the document. */
  ghost predicate Stands(quote: string, document: string) { quote != "" && Part(quote, document) }

  lemma StandsExactly(quote: string, document: string)
    ensures Stands(quote, document) <==> quote != "" && Occurs(quote, document)
  {
    PartExactly(quote, document);
  }

  /** A script finding that another version is still current under. */
  predicate Prior(f: Finding, version: string) { f.active && f.alert.None? && f.assetVersion != version }

  /**
   Reviewing a version: a prior finding whose quote stands is moved there with its status;
   one whose quote is empty or gone was fixed if it was open; all else stays as it is.
   */
  ghost predicate Carried(f: Finding, g: Finding, version: string, document: string) {
    && (Prior(f, version) && Stands(f.quote, document) ==> g == f.(assetVersion := version))
    && (Prior(f, version) && !Stands(f.quote, document) && f.status == Open ==> g == f.(status := SelfFixed))
    && (Prior(f, version) && !Stands(f.quote, document) && f.status != Open ==> g == f)
    && (!Prior(f, version) ==> g == f)
  }

  ghost predicate AllCarried(before: seq<Finding>, after: seq<Finding>, version: string, document: string) {
    |before| <= |after| && forall i | 0 <= i < |before| :: Carried(before[i], after[i], version, document)
  }

  lemma CarriedExactly(findings: seq<Finding>, version: string, document: string)
    ensures AllCarried(findings, Carry(findings, version, document), version, document)
  {
    forall i | 0 <= i < |findings| ensures Carried(findings[i], Carry(findings, version, document)[i], version, document) {
      StandsExactly(findings[i].quote, document);
    }
  }

  /** An ordinary review carries every stored finding, and stores only open script findings of this version. */
  lemma ReviewCarries(findings: seq<Finding>, version: string, document: string, ps: seq<Proposal>, ids: nat -> string)
    ensures var after := Review(findings, version, document, ps, None, ids);
            && AllCarried(findings, after, version, document)
            && forall i | |findings| <= i < |after| ::
                 after[i].active && after[i].status == Open && after[i].alert.None? && after[i].assetVersion == version
  {
    CarriedExactly(findings, version, document);
    var carried := Carry(findings, version, document);
    var written := WriteAll(Kept(SeenKeys(findings, version, document), ps), ids, version, None);
    assert Review(findings, version, document, ps, None, ids) == carried + written;
  }

  // -------------------------------------------------------------- invariants

  predicate Current(f: Finding) { f.active && Script(f) }

  ghost predicate OneFindingPerQuote(findings: seq<Finding>) {
    forall i, j | 0 <= i < j < |findings| && Current(findings[i]) && Current(findings[j]) ::
      KeyOf(findings[i]) != KeyOf(findings[j])
  }

  /** Positions and ids stay; only OPEN may turn into SELF_FIXED. */
  ghost predicate DecisionsKept(before: seq<Finding>, after: seq<Finding>) {
    && |before| <= |after|
    && forall i | 0 <= i < |before| ::
         && after[i].findingId == before[i].findingId
         && KeyOf(after[i]) == KeyOf(before[i])
         && after[i].alert == before[i].alert
         && (after[i].status == before[i].status || (before[i].status.Open? && after[i].status.SelfFixed?))
  }

  ghost predicate FreshIds(findings: seq<Finding>, ids: nat -> string) {
    && (forall i: nat, j: nat :: ids(i) == ids(j) ==> i == j)
    && (forall i: nat, f | f in findings :: ids(i) != f.findingId)
  }

  ghost predicate HasKey(ps: seq<Proposal>, k: Key) {
    exists p :: p in ps && ProposalKey(p) == k
  }

  /** What is kept was proposed, was not seen before, and has pairwise different keys. */
  lemma {:induction false} KeptIsNew(seen: set<Key>, ps: seq<Proposal>)
    ensures forall p | p in Kept(seen, ps) :: p in ps && ProposalKey(p) !in seen
    ensures forall i, j | 0 <= i < j < |Kept(seen, ps)| ::
              ProposalKey(Kept(seen, ps)[i]) != ProposalKey(Kept(seen, ps)[j])
    decreases |ps|
  {
    if ps != [] {
      if ProposalKey(ps[0]) in seen {
        KeptIsNew(seen, ps[1..]);
      } else {
        var more := seen + {ProposalKey(ps[0])};
        var rest := Kept(more, ps[1..]);
        KeptIsNew(more, ps[1..]);
        var k := Kept(seen, ps);
        assert k == [ps[0]] + rest;
        forall i, j | 0 <= i < j < |k| ensures ProposalKey(k[i]) != ProposalKey(k[j]) {
          assert k[j] == rest[j - 1] && rest[j - 1] in rest;
          if i > 0 { assert k[i] == rest[i - 1]; }
        }
      }
    }
  }

  /** No proposed key is lost: it was seen before, or a proposal carrying it is kept. */
  lemma {:induction false} KeptCovers(seen: set<Key>, ps: seq<Proposal>, p: Proposal)
    requires p in ps
    ensures ProposalKey(p) in seen || HasKey(Kept(seen, ps), ProposalKey(p))
    decreases |ps|
  {
    var first := ps[0];
    if ProposalKey(first) in seen {
      if p != first { KeptCovers(seen, ps[1..], p); }
    } else {
      var more := seen + {ProposalKey(first)};
      var k := Kept(seen, ps);
      assert k == [first] + Kept(more, ps[1..]);
      assert first in k;
      if p != first {
        KeptCovers(more, ps[1..], p);
        if ProposalKey(p) !in more {
          var q :| q in Kept(more, ps[1..]) && ProposalKey(q) == ProposalKey(p);
          assert q in k;
        }
      }
    }
  }

  /** No earlier proposal has the key of the one at `j`. */
  ghost predicate FirstOfKey(ps: seq<Proposal>, j: nat) {
    j < |ps| && forall k | 0 <= k < j :: ProposalKey(ps[k]) != ProposalKey(ps[j])
  }

  ghost predicate IsFirst(ps: seq<Proposal>, p: Proposal) { exists j: nat :: FirstOfKey(ps, j) && ps[j] == p }

  lemma FirstLater(ps: seq<Proposal>, p: Proposal)
    requires ps != [] && IsFirst(ps[1..], p) && ProposalKey(p) != ProposalKey(ps[0])
    ensures IsFirst(ps, p)
  {
    var j: nat :| FirstOfKey(ps[1..], j) && ps[1..][j] == p;
    forall k | 0 <= k < j + 1 ensures ProposalKey(ps[k]) != ProposalKey(ps[j + 1]) {
      if k > 0 { assert ps[k] == ps[1..][k - 1]; }
    }
    assert FirstOfKey(ps, j + 1);
  }

  lemma FirstEarlier(ps: seq<Proposal>, p: Proposal)
    requires ps != [] && IsFirst(ps, p) && p != ps[0]
    ensures IsFirst(ps[1..], p) && ProposalKey(p) != ProposalKey(ps[0])
  {
    var j: nat :| FirstOfKey(ps, j) && ps[j] == p;
    forall k | 0 <= k < j - 1 ensures ProposalKey(ps[1..][k]) != ProposalKey(ps[1..][j - 1]) {
      assert ps[1..][k] == ps[k + 1];
    }
    assert FirstOfKey(ps[1..], j - 1);
  }

  /** Kept is exactly the first proposal of each key that was not seen before. */
  lemma {:induction false} KeptExactly(seen: set<Key>, ps: seq<Proposal>, p: Proposal)
    ensures p in Kept(seen, ps) <==> IsFirst(ps, p) && ProposalKey(p) !in seen
    decreases |ps|
  {
    if ps != [] {
      var more := if ProposalKey(ps[0]) in seen then seen else seen + {ProposalKey(ps[0])};
      KeptExactly(more, ps[1..], p);
      if p == ps[0] {
        assert FirstOfKey(ps, 0);
        if ProposalKey(p) in seen { assert p !in Kept(seen, ps[1..]); }
      } else if IsFirst(ps, p) {
        FirstEarlier(ps, p);
      } else if IsFirst(ps[1..], p) && ProposalKey(p) != ProposalKey(ps[0]) {
        FirstLater(ps, p);
      }
    }
  }

  /** The category and quote are on record for this version before the proposals are read. */
  ghost predicate OnRecord(findings: seq<Finding>, category: string, quote: string, version: string, document: string) {
    exists f :: f in findings && f.category == category && f.quote == quote && f.active
                && (f.assetVersion == version || (f.alert.None? && Stands(quote, document)))
  }

  /** A stored finding says what the proposal said, open, of this version. */
  predicate Records(f: Finding, p: Proposal, version: string, generation: Option<nat>) {
    && f.category == p.category && f.quote == p.quote && f.severity == p.severity
    && f.episode == p.episode && f.scene == p.scene && f.lines == p.lines
    && f.assetVersion == version && f.generation == generation && f.active && f.status == Open && f.alert.None?
  }

  lemma OnRecordExactly(findings: seq<Finding>, category: string, quote: string, version: string, document: string)
    ensures OnRecord(findings, category, quote, version, document) <==> (category, quote) in SeenKeys(findings, version, document)
  {
    StandsExactly(quote, document);
    if OnRecord(findings, category, quote, version, document) {
      var f :| f in findings && f.category == category && f.quote == quote && f.active
               && (f.assetVersion == version || (f.alert.None? && Stands(quote, document)));
      assert Seen(f, version, document) && KeyOf(f) == (category, quote);
    }
    if (category, quote) in SeenKeys(findings, version, document) {
      var f :| f in findings && Seen(f, version, document) && KeyOf(f) == (category, quote);
      assert f.category == category && f.quote == quote;
    }
  }

  /**
   What an ordinary review stores: one finding for the first proposal of each category
   and quote that was not on record, saying what that proposal said, and no other.
   */
  lemma ReviewRecords(findings: seq<Finding>, version: string, document: string, ps: seq<Proposal>, ids: nat -> string, p: Proposal)
    ensures var after := Review(findings, version, document, ps, None, ids);
            && |findings| <= |after|
            && (IsFirst(ps, p) && !OnRecord(findings, p.category, p.quote, version, document) ==>
                  exists n :: |findings| <= n < |after| && Records(after[n], p, version, None))
            && forall n | |findings| <= n < |after| && Records(after[n], p, version, None) ::
                 IsFirst(ps, p) && !OnRecord(findings, p.category, p.quote, version, document)
  {
    var seen := SeenKeys(findings, version, document);
    var kept := Kept(seen, ps);
    var after := Review(findings, version, document, ps, None, ids);
    OnRecordExactly(findings, p.category, p.quote, version, document);
    KeptExactly(seen, ps, p);
    if p in kept {
      var n :| 0 <= n < |kept| && kept[n] == p;
      assert after[|findings| + n] == Written(p, ids(n), version, None);
    }
    forall n | |findings| <= n < |after| && Records(after[n], p, version, None) ensures p in kept {
      var q := kept[n - |findings|];
      assert after[n] == Written(q, ids(n - |findings|), version, None);
      assert q == p && q in kept;
    }
  }

  /**
   What a generation's review stores: the asset's current script findings go inactive, nothing
   else moves, and the first proposal of each category and quote is recorded under the generation.
   */
  lemma GenerationRecords(findings: seq<Finding>, version: string, document: string, ps: seq<Proposal>,
                          generation: nat, ids: nat -> string, p: Proposal)
    ensures var after := Review(findings, version, document, ps, Some(generation), ids);
            && |findings| <= |after|
            && (forall i | 0 <= i < |findings| ::
                  var f := findings[i];
                  after[i] == f.(active := f.active && !(f.alert.None? && f.assetVersion == version)))
            && (IsFirst(ps, p) ==> exists n :: |findings| <= n < |after| && Records(after[n], p, version, Some(generation)))
            && forall n | |findings| <= n < |after| && Records(after[n], p, version, Some(generation)) :: IsFirst(ps, p)
  {
    var kept := Kept({}, ps);
    var after := Review(findings, version, document, ps, Some(generation), ids);
    KeptExactly({}, ps, p);
    if p in kept {
      var n :| 0 <= n < |kept| && kept[n] == p;
      assert after[|findings| + n] == Written(p, ids(n), version, Some(generation));
    }
    forall n | |findings| <= n < |after| && Records(after[n], p, version, Some(generation)) ensures p in kept {
      var q := kept[n - |findings|];
      assert after[n] == Written(q, ids(n - |findings|), version, Some(generation));
      assert q == p && q in kept;
    }
  }

  /** A current finding is stranded by a proposal of its key when its quote left the document and so was not seen. */
  ghost predicate Stranded(f: Finding, p: Proposal, findings: seq<Finding>, version: string, document: string) {
    Current(f) && KeyOf(f) == ProposalKey(p) && ProposalKey(p) !in SeenKeys(findings, version, document)
  }

  ghost predicate NoneStranded(findings: seq<Finding>, version: string, document: string, ps: seq<Proposal>) {
    forall f, p | f in findings && p in ps :: !Stranded(f, p, findings, version, document)
  }

  lemma NoneStrandedIsUnique(findings: seq<Finding>, version: string, document: string, ps: seq<Proposal>, ids: nat -> string)
    requires OneFindingPerQuote(findings) && NoneStranded(findings, version, document, ps)
    ensures OneFindingPerQuote(Review(findings, version, document, ps, None, ids))
  {
    var seen := SeenKeys(findings, version, document);
    var carried := Carry(findings, version, document);
    var kept := Kept(seen, ps);
    var after := Review(findings, version, document, ps, None, ids);
    KeptIsNew(seen, ps);
    forall i, j | 0 <= i < j < |after| && Current(after[i]) && Current(after[j])
      ensures KeyOf(after[i]) != KeyOf(after[j])
    {
      if i < |carried| {
        assert after[i] == CarryOne(findings[i], version, document);
        if j < |carried| {
          assert after[j] == CarryOne(findings[j], version, document);
        } else {
          var p := kept[j - |carried|];
          assert p in kept && findings[i] in findings && !Stranded(findings[i], p, findings, version, document);
        }
      }
    }
  }

  lemma StrandedIsDoubled(findings: seq<Finding>, version: string, document: string, ps: seq<Proposal>, ids: nat -> string,
                          f: Finding, p: Proposal)
    requires f in findings && p in ps && Stranded(f, p, findings, version, document)
    ensures !OneFindingPerQuote(Review(findings, version, document, ps, None, ids))
  {
    var seen := SeenKeys(findings, version, document);
    var kept := Kept(seen, ps);
    var after := Review(findings, version, document, ps, None, ids);
    KeptCovers(seen, ps, p);
    var i :| 0 <= i < |findings| && findings[i] == f;
    var q :| q in kept && ProposalKey(q) == ProposalKey(p);
    var n :| 0 <= n < |kept| && kept[n] == q;
    assert after[i] == CarryOne(f, version, document);
    assert after[|findings| + n] == Written(q, ids(n), version, None);
    assert Current(after[i]) && Current(after[|findings| + n]) && KeyOf(after[i]) == KeyOf(after[|findings| + n]);
  }

  /**
   A review keeps one active script finding per category and quote exactly when no
   proposal repeats the key of a current finding whose quote the document has lost.
   */
  lemma UniqueExactly(findings: seq<Finding>, version: string, document: string, ps: seq<Proposal>, ids: nat -> string)
    requires OneFindingPerQuote(findings)
    ensures OneFindingPerQuote(Review(findings, version, document, ps, None, ids)) <==>
            NoneStranded(findings, version, document, ps)
  {
    if NoneStranded(findings, version, document, ps) {
      NoneStrandedIsUnique(findings, version, document, ps, ids);
    } else {
      var f, p :| f in findings && p in ps && Stranded(f, p, findings, version, document);
      StrandedIsDoubled(findings, version, document, ps, ids, f, p);
    }
  }

  /** A current finding on another script whose key a proposal repeats: retiring does not reach it. */
  ghost predicate Elsewhere(f: Finding, p: Proposal, version: string) {
    Current(f) && f.assetVersion != version && KeyOf(f) == ProposalKey(p)
  }

  ghost predicate NoneElsewhere(findings: seq<Finding>, version: string, ps: seq<Proposal>) {
    forall f, p | f in findings && p in ps :: !Elsewhere(f, p, version)
  }

  lemma NoneElsewhereIsUnique(findings: seq<Finding>, version: string, document: string, ps: seq<Proposal>,
                              generation: nat, ids: nat -> string)
    requires OneFindingPerQuote(findings) && NoneElsewhere(findings, version, ps)
    ensures OneFindingPerQuote(Review(findings, version, document, ps, Some(generation), ids))
  {
    var kept := Kept({}, ps);
    var after := Review(findings, version, document, ps, Some(generation), ids);
    KeptIsNew({}, ps);
    forall i, j | 0 <= i < j < |after| && Current(after[i]) && Current(after[j])
      ensures KeyOf(after[i]) != KeyOf(after[j])
    {
      if i < |findings| {
        assert after[i] == RetireOne(findings[i], version);
        if j < |findings| {
          assert after[j] == RetireOne(findings[j], version);
        } else {
          var p := kept[j - |findings|];
          assert p in kept && findings[i] in findings && !Elsewhere(findings[i], p, version);
        }
      }
    }
  }

  lemma ElsewhereIsDoubled(findings: seq<Finding>, version: string, document: string, ps: seq<Proposal>,
                           generation: nat, ids: nat -> string, f: Finding, p: Proposal)
    requires f in findings && p in ps && Elsewhere(f, p, version)
    ensures !OneFindingPerQuote(Review(findings, version, document, ps, Some(generation), ids))
  {
    var kept := Kept({}, ps);
    var after := Review(findings, version, document, ps, Some(generation), ids);
    KeptCovers({}, ps, p);
    var i :| 0 <= i < |findings| && findings[i] == f;
    var q :| q in kept && ProposalKey(q) == ProposalKey(p);
    var n :| 0 <= n < |kept| && kept[n] == q;
    assert after[i] == RetireOne(f, version);
    assert after[|findings| + n] == Written(q, ids(n), version, Some(generation));
    assert Current(after[i]) && Current(after[|findings| + n]) && KeyOf(after[i]) == KeyOf(after[|findings| + n]);
  }

  /**
   A generation's review keeps one active script finding per category and quote exactly
   when no proposal repeats the key of a current finding on another script: one that
   was carried to a newer version stays current beside the older script's conclusion.
   */
  lemma GenerationUniqueExactly(findings: seq<Finding>, version: string, document: string, ps: seq<Proposal>,
                                generation: nat, ids: nat -> string)
    requires OneFindingPerQuote(findings)
    ensures OneFindingPerQuote(Review(findings, version, document, ps, Some(generation), ids)) <==>
            NoneElsewhere(findings, version, ps)
  {
    if NoneElsewhere(findings, version, ps) {
      NoneElsewhereIsUnique(findings, version, document, ps, generation, ids);
    } else {
      var f, p :| f in findings && p in ps && Elsewhere(f, p, version);
      ElsewhereIsDoubled(findings, version, document, ps, generation, ids, f, p);
    }
  }

  /**
   The input: a script reviewed, its finding carried to a newer upload, then the older
   script reviewed again under a generation. Both findings are current.
   */
  lemma ReanalysisOfOlderDoubles()
    ensures var p := Proposal("political", "q", None, None, {}, NeedsHuman);
            var first := Review([], "v1", "q", [p], None, n => "first");
            var carried := Review(first, "v2", "q", [p], None, n => "second");
            && OneFindingPerQuote(carried)
            && !OneFindingPerQuote(Review(carried, "v1", "q", [p], Some(2), n => "third"))
  {
    var p := Proposal("political", "q", None, None, {}, NeedsHuman);
    assert OccursAt("q", "q", 0);
    var first := Review([], "v1", "q", [p], None, n => "first");
    assert SeenKeys([], "v1", "q") == {} && Kept({}, [p]) == [p];
    assert first == [Written(p, "first", "v1", None)];
    var f := first[0].(assetVersion := "v2");
    assert Follows(first[0], "v2", "q") && first[0] in first && KeyOf(first[0]) in SeenKeys(first, "v2", "q");
    assert Kept(SeenKeys(first, "v2", "q"), [p]) == [];
    assert Review(first, "v2", "q", [p], None, n => "second") == [f];
    assert Elsewhere(f, p, "v1") && f in [f] && p in [p];
    ElsewhereIsDoubled([f], "v1", "q", [p], 2, n => "third", f, p);
  }

  /** Proposals that quote the document strand nothing; a review never touches a creator's decision. */
  lemma ReviewKeepsOnePerQuote(findings: seq<Finding>, version: string, document: string, ps: seq<Proposal>, ids: nat -> string)
    requires OneFindingPerQuote(findings)
    requires forall p | p in ps :: p.quote != "" && Occurs(p.quote, document)
    ensures OneFindingPerQuote(Review(findings, version, document, ps, None, ids))
    ensures DecisionsKept(findings, Review(findings, version, document, ps, None, ids))
  {
    forall f, p | f in findings && p in ps ensures !Stranded(f, p, findings, version, document) {
      if Current(f) && KeyOf(f) == ProposalKey(p) { assert Seen(f, version, document); }
    }
    NoneStrandedIsUnique(findings, version, document, ps, ids);
    ReviewKeepsDecisions(findings, version, document, ps, ids);
  }

  lemma ReviewKeepsDecisions(findings: seq<Finding>, version: string, document: string, ps: seq<Proposal>, ids: nat -> string)
    ensures DecisionsKept(findings, Review(findings, version, document, ps, None, ids))
  {
  }

  ghost predicate HasFinding(findings: seq<Finding>, k: Key) {
    exists f :: f in findings && KeyOf(f) == k
  }

  /**
   A fresh generation: the active script findings on the asset are exactly those it
   wrote; the earlier ones stay stored, in place, with their statuses.
   */
  lemma GenerationIsFresh(findings: seq<Finding>, version: string, document: string, ps: seq<Proposal>,
                          generation: nat, ids: nat -> string, i: nat)
    requires i < |Review(findings, version, document, ps, Some(generation), ids)|
    ensures var after := Review(findings, version, document, ps, Some(generation), ids);
            && |findings| <= |after|
            && (i < |findings| ==> after[i].(active := findings[i].active) == findings[i])
            && (Current(after[i]) && after[i].assetVersion == version <==> i >= |findings|)
            && (i >= |findings| ==> after[i].generation == Some(generation))
  {
    var kept := Kept({}, ps);
    if i < |findings| {
      assert Review(findings, version, document, ps, Some(generation), ids)[i] == RetireOne(findings[i], version);
    } else {
      var n := i - |findings|;
      assert Review(findings, version, document, ps, Some(generation), ids)[i]
        == Written(kept[n], ids(n), version, Some(generation));
    }
  }

  /** A review writes or keeps a finding for every key it proposes. */
  lemma EveryProposalIsRecorded(findings: seq<Finding>, version: string, document: string, ps: seq<Proposal>,
                                generation: Option<nat>, ids: nat -> string, p: Proposal)
    requires p in ps
    ensures HasFinding(Review(findings, version, document, ps, generation, ids), ProposalKey(p))
  {
    var after := Review(findings, version, document, ps, generation, ids);
    var seen := if generation.None? then SeenKeys(findings, version, document) else {};
    var kept := Kept(seen, ps);
    KeptCovers(seen, ps, p);
    if ProposalKey(p) in seen {
      SeenIsThere(findings, version, document, ProposalKey(p));
      var f :| f in Carry(findings, version, document) && KeyOf(f) == ProposalKey(p);
      assert f in after;
    } else {
      var q :| q in kept && ProposalKey(q) == ProposalKey(p);
      var n :| 0 <= n < |kept| && kept[n] == q;
      var written := WriteAll(kept, ids, version, generation);
      assert written[n] == Written(q, ids(n), version, generation);
      assert after == after[..|findings|] + written;
      assert KeyOf(written[n]) == ProposalKey(p) && written[n] in after;
    }
  }

  lemma SeenIsThere(findings: seq<Finding>, version: string, document: string, k: Key)
    requires k in SeenKeys(findings, version, document)
    ensures HasFinding(Carry(findings, version, document), k)
  {
    var f :| f in findings && Seen(f, version, document) && KeyOf(f) == k;
    var n :| 0 <= n < |findings| && findings[n] == f;
    var carried := Carry(findings, version, document);
    assert carried[n] == CarryOne(f, version, document);
    assert carried[n] in carried && KeyOf(carried[n]) == k;
  }

  // --------------------------------------------------------- creator actions

  datatype Action = Accept | Resolve | Waive(reason: string) | Reject(waiver: string) | Choose(option: string) | Unknown

  function Acted(f: Finding, action: Action): Option<Finding> {
    match action
    case Accept => Some(f.(status := Accepted))
    case Resolve => Some(f.(status := Resolved))
    case Waive(reason) => if Strip(reason) == "" then None else Some(f.(status := Waived))
    case Reject(reason) => if Strip(reason) == "" then None else Some(f.(status := Rejected))
    case Choose(o) =>
      if f.alert.Some? && o in f.alert.value.options
      then Some(f.(alert := Some(f.alert.value.(chosen := Some(o))))) else None
    case Unknown => None
  }

  function Act(findings: seq<Finding>, id: string, action: Action): seq<Finding> {
    var i := Find(findings, FindingId, id);
    if i < |findings| && Acted(findings[i], action).Some?
    then findings[i := Acted(findings[i], action).value] else findings
  }

  datatype Event =
    | Reviewed(version: string, document: string, ps: seq<Proposal>, ids: nat -> string)
    | ActedOn(id: string, action: Action)

  function After(findings: seq<Finding>, e: Event): seq<Finding> {
    match e
    case Reviewed(version, document, ps, ids) => Review(findings, version, document, ps, None, ids)
    case ActedOn(id, action) => Act(findings, id, action)
  }

  function AfterAll(findings: seq<Finding>, es: seq<Event>): seq<Finding>
    decreases |es|
  {
    if es == [] then findings else AfterAll(After(findings, es[0]), es[1..])
  }

  /** Every quote a review proposes is text of the document it read. */
  ghost predicate Quoting(e: Event) {
    e.Reviewed? ==> forall p | p in e.ps :: p.quote != "" && Occurs(p.quote, e.document)
  }

  /** What no event does: lose a finding, move it, or change what it points at. */
  ghost predicate NoneLost(before: seq<Finding>, after: seq<Finding>) {
    && |before| <= |after|
    && forall i | 0 <= i < |before| :: SameFinding(before[i], after[i])
  }

  predicate SameFinding(f: Finding, g: Finding) {
    g.findingId == f.findingId && KeyOf(g) == KeyOf(f) && (f.active ==> g.active)
  }

  lemma AfterKeeps(findings: seq<Finding>, e: Event)
    requires OneFindingPerQuote(findings) && Quoting(e)
    ensures OneFindingPerQuote(After(findings, e)) && NoneLost(findings, After(findings, e))
  {
    match e {
      case Reviewed(version, document, ps, ids) =>
        ReviewKeepsOnePerQuote(findings, version, document, ps, ids);
        ReviewLosesNone(findings, version, document, ps, ids);
      case ActedOn(id, action) =>
        ActKeeps(findings, id, action);
    }
  }

  lemma ReviewLosesNone(findings: seq<Finding>, version: string, document: string, ps: seq<Proposal>, ids: nat -> string)
    ensures NoneLost(findings, Review(findings, version, document, ps, None, ids))
  {
    var after := Review(findings, version, document, ps, None, ids);
    forall i | 0 <= i < |findings| ensures SameFinding(findings[i], after[i]) {
      assert after[i] == CarryOne(findings[i], version, document);
    }
  }

  /** A creator's decision touches one finding, and only its status or chosen option. */
  lemma ActKeeps(findings: seq<Finding>, id: string, action: Action)
    requires OneFindingPerQuote(findings)
    ensures OneFindingPerQuote(Act(findings, id, action)) && NoneLost(findings, Act(findings, id, action))
    ensures forall i | 0 <= i < |findings| && findings[i].findingId != id :: Act(findings, id, action)[i] == findings[i]
  {
    var after := Act(findings, id, action);
    forall i | 0 <= i < |findings|
      ensures SameFinding(findings[i], after[i]) && Current(after[i]) == Current(findings[i])
    {
    }
  }

  /**
   For any sequence of uploads, pre-checks and creator decisions: never two
   active script findings with one category and quote, and nothing is deleted.
   */
  lemma {:induction false} FindingsOverVersions(findings: seq<Finding>, es: seq<Event>)
    requires OneFindingPerQuote(findings)
    requires forall e | e in es :: Quoting(e)
    ensures OneFindingPerQuote(AfterAll(findings, es))
    ensures NoneLost(findings, AfterAll(findings, es))
    decreases |es|
  {
    if es != [] {
      var next := After(findings, es[0]);
      AfterKeeps(findings, es[0]);
      FindingsOverVersions(next, es[1..]);
      NoneLostTransitive(findings, next, AfterAll(next, es[1..]));
    }
  }

  lemma NoneLostTransitive(a: seq<Finding>, b: seq<Finding>, c: seq<Finding>)
    requires NoneLost(a, b) && NoneLost(b, c)
    ensures NoneLost(a, c)
  {
    forall i | 0 <= i < |a| ensures SameFinding(a[i], c[i]) {
      assert SameFinding(a[i], b[i]) && SameFinding(b[i], c[i]);
    }
  }

  /** What rests on quoting: a proposal absent from the document can double an existing finding. */
  lemma UnquotedProposalDoubles()
    ensures var p := Proposal("political", "q", None, None, {}, NeedsHuman);
            var f := Written(p, "old", "v1", None).(status := Accepted);
            !OneFindingPerQuote(Review([f], "v2", "", [p], None, n => "new"))
  {
    var p := Proposal("political", "q", None, None, {}, NeedsHuman);
    var f := Written(p, "old", "v1", None).(status := Accepted);
    var after := Review([f], "v2", "", [p], None, n => "new");
    assert !Occurs("q", "");
    assert SeenKeys([f], "v2", "") == {};
    assert Kept({}, [p]) == [p];
    assert after[0].active && after[1].active && KeyOf(after[0]) == KeyOf(after[1]);
  }

  // ------------------------------------------------- the classification alert

  const INTENT := "intent_profile"

  predicate ClassificationAlert(f: Finding) { f.assetVersion == INTENT && f.alert.Some? }

  function Quiet(f: Finding, id: string): Finding {
    if ClassificationAlert(f) && f.findingId != id && f.active then f.(active := false) else f
  }

  function QuietOthers(findings: seq<Finding>, id: string): (r: seq<Finding>)
    ensures |r| == |findings| && forall i | 0 <= i < |r| :: r[i] == Quiet(findings[i], id)
  {
    seq(|findings|, i requires 0 <= i < |findings| => Quiet(findings[i], id))
  }

  /** The alert proposed by the chain, if any, under the project's one fixed alert id. */
  function SyncAlert(findings: seq<Finding>, id: string, alert: Option<Finding>, generation: Option<nat>): seq<Finding> {
    var quieted := QuietOthers(findings, id);
    match alert
    case Some(f) => PutById(quieted, FindingId, f.(findingId := id, generation := generation, active := true))
    case None =>
      var i := Find(quieted, FindingId, id);
      if i < |quieted| && quieted[i].active
      then quieted[i := quieted[i].(active := false, generation := generation)] else quieted
  }

  predicate ActiveAlert(f: Finding) { f.active && ClassificationAlert(f) }

  /** Quieting leaves no active alert but the one under the fixed id. */
  lemma QuietedAlerts(findings: seq<Finding>, id: string, i: nat)
    requires i < |findings| && ActiveAlert(QuietOthers(findings, id)[i])
    ensures QuietOthers(findings, id)[i].findingId == id
  {
  }

  lemma QuietedIds(findings: seq<Finding>, id: string)
    requires Distinct(findings, FindingId)
    ensures Distinct(QuietOthers(findings, id), FindingId)
  {
    var quieted := QuietOthers(findings, id);
    forall i, j | 0 <= i < j < |quieted| ensures FindingId(quieted[i]) != FindingId(quieted[j]) {
      assert FindingId(findings[i]) != FindingId(findings[j]);
    }
  }

  lemma QuietedFind(findings: seq<Finding>, id: string)
    ensures Find(QuietOthers(findings, id), FindingId, id) == Find(findings, FindingId, id)
  {
    var quieted := QuietOthers(findings, id);
    var k := Find(findings, FindingId, id);
    assert forall j | 0 <= j < |findings| :: FindingId(quieted[j]) == FindingId(findings[j]);
    FindUnique(quieted, FindingId, id, k);
  }

  lemma OthersAt(s: seq<Finding>, id: string, n: nat)
    requires Distinct(s, FindingId) && n < |s| && n != Find(s, FindingId, id)
    ensures s[n].findingId != id
  {
    var k := Find(s, FindingId, id);
    if n < k {
      assert FindingId(s[n]) != id;
    } else {
      assert FindingId(s[k]) != FindingId(s[n]);
    }
  }

  /** After a classification an active alert carries the project's one alert id, and only if the chain raised one. */
  lemma OneActiveAlert(findings: seq<Finding>, id: string, alert: Option<Finding>, generation: Option<nat>, i: nat)
    requires Distinct(findings, FindingId)
    requires i < |SyncAlert(findings, id, alert, generation)|
    requires ActiveAlert(SyncAlert(findings, id, alert, generation)[i])
    ensures SyncAlert(findings, id, alert, generation)[i].findingId == id && alert.Some?
    ensures i == Find(findings, FindingId, id)
  {
    var quieted := QuietOthers(findings, id);
    QuietedIds(findings, id);
    QuietedFind(findings, id);
    var k := Find(quieted, FindingId, id);
    if i < |quieted| && i != k {
      QuietedAlerts(findings, id, i);
      OthersAt(quieted, id, i);
    }
  }

  /** The alert the chain raised, as it is stored: under the fixed id, of this generation, active. */
  predicate Raised(f: Finding, alert: Finding, id: string, generation: Option<nat>) {
    && f.findingId == id && f.generation == generation && f.active
    && f == alert.(findingId := f.findingId, generation := f.generation, active := f.active)
  }

  /** One stored finding over a sync: the fixed alert is replaced or closed, other active intent alerts are closed. */
  predicate Synced(f: Finding, g: Finding, id: string, alert: Option<Finding>, generation: Option<nat>) {
    if f.findingId == id then
      match alert
      case Some(a) => Raised(g, a, id, generation)
      case None => g == if f.active then f.(active := false, generation := generation) else f
    else if f.active && f.alert.Some? && f.assetVersion == "intent_profile" then g == f.(active := false)
    else g == f
  }

  /** What a classification leaves of the findings: each stored one synced, and a raised alert appended if its id is new. */
  lemma SyncExactly(findings: seq<Finding>, id: string, alert: Option<Finding>, generation: Option<nat>)
    requires Distinct(findings, FindingId)
    ensures var after := SyncAlert(findings, id, alert, generation);
            var added := alert.Some? && forall f | f in findings :: f.findingId != id;
            && |after| == |findings| + (if added then 1 else 0)
            && (forall i | 0 <= i < |findings| :: Synced(findings[i], after[i], id, alert, generation))
            && (added ==> Raised(after[|findings|], alert.value, id, generation))
  {
    QuietedFind(findings, id);
    var k := Find(findings, FindingId, id);
    assert (forall f | f in findings :: f.findingId != id) <==> k == |findings| by {
      if k < |findings| { assert findings[k] in findings; }
      if k == |findings| {
        forall f | f in findings ensures f.findingId != id {
          var j :| 0 <= j < |findings| && findings[j] == f;
          assert FindingId(findings[j]) != id;
        }
      }
    }
    forall i | 0 <= i < |findings|
      ensures Synced(findings[i], SyncAlert(findings, id, alert, generation)[i], id, alert, generation)
    {
      SyncedAt(findings, id, alert, generation, i);
    }
  }

  lemma SyncedAt(findings: seq<Finding>, id: string, alert: Option<Finding>, generation: Option<nat>, i: nat)
    requires Distinct(findings, FindingId) && i < |findings|
    ensures i < |SyncAlert(findings, id, alert, generation)|
    ensures Synced(findings[i], SyncAlert(findings, id, alert, generation)[i], id, alert, generation)
  {
    var k := Find(findings, FindingId, id);
    QuietedFind(findings, id);
    if i != k { OthersAt(findings, id, i); }
  }

  /** Everything that is not a classification alert passes through untouched. */
  lemma SyncTouchesOnlyAlerts(findings: seq<Finding>, id: string, alert: Option<Finding>, generation: Option<nat>, i: nat)
    requires i < |findings| && !ClassificationAlert(findings[i]) && findings[i].findingId != id
    ensures i < |SyncAlert(findings, id, alert, generation)|
    ensures SyncAlert(findings, id, alert, generation)[i] == findings[i]
  {
    var quieted := QuietOthers(findings, id);
    assert quieted[i] == findings[i];
  }

  // ------------------------------------------------------------- ids stay distinct

  lemma SameIdsDistinct(s: seq<Finding>, t: seq<Finding>)
    requires Distinct(s, FindingId) && |s| == |t| && forall j | 0 <= j < |s| :: FindingId(s[j]) == FindingId(t[j])
    ensures Distinct(t, FindingId)
  {
    forall i, j | 0 <= i < j < |t| ensures FindingId(t[i]) != FindingId(t[j]) {
      assert FindingId(s[i]) != FindingId(s[j]);
    }
  }

  lemma WrittenIds(base: seq<Finding>, ps: seq<Proposal>, ids: nat -> string, version: string, generation: Option<nat>)
    requires Distinct(base, FindingId) && FreshIds(base, ids)
    ensures Distinct(base + WriteAll(ps, ids, version, generation), FindingId)
  {
    var all, written := base + WriteAll(ps, ids, version, generation), WriteAll(ps, ids, version, generation);
    forall i, j | 0 <= i < j < |all| ensures FindingId(all[i]) != FindingId(all[j]) {
      if j < |base| {
        assert FindingId(base[i]) != FindingId(base[j]);
      } else {
        assert written[j - |base|] == Written(ps[j - |base|], ids(j - |base|), version, generation);
        if i < |base| {
          assert base[i] in base;
        } else {
          assert written[i - |base|] == Written(ps[i - |base|], ids(i - |base|), version, generation);
        }
      }
    }
  }

  lemma StillFresh(before: seq<Finding>, after: seq<Finding>, ids: nat -> string)
    requires FreshIds(before, ids)
    requires |before| == |after| && forall i | 0 <= i < |after| :: FindingId(before[i]) == FindingId(after[i])
    ensures FreshIds(after, ids)
  {
    forall n: nat, f | f in after ensures ids(n) != f.findingId {
      var i :| 0 <= i < |after| && after[i] == f;
      assert FindingId(before[i]) == FindingId(after[i]) && before[i] in before;
    }
  }

  lemma ReviewKeepsIds(findings: seq<Finding>, version: string, document: string, ps: seq<Proposal>,
                       generation: Option<nat>, ids: nat -> string)
    requires Distinct(findings, FindingId) && FreshIds(findings, ids)
    ensures Distinct(Review(findings, version, document, ps, generation, ids), FindingId)
  {
    var base := if generation.None? then Carry(findings, version, document) else Retire(findings, version);
    var seen := if generation.None? then SeenKeys(findings, version, document) else {};
    SameIdsDistinct(findings, base);
    StillFresh(findings, base, ids);
    WrittenIds(base, Kept(seen, ps), ids, version, generation);
  }

  lemma SyncKeepsIds(findings: seq<Finding>, id: string, alert: Option<Finding>, generation: Option<nat>)
    requires Distinct(findings, FindingId)
    ensures Distinct(SyncAlert(findings, id, alert, generation), FindingId)
  {
    QuietedIds(findings, id);
    var quieted := QuietOthers(findings, id);
    if alert.Some? {
      PutByIdDistinct(quieted, FindingId, alert.value.(findingId := id, generation := generation, active := true));
    } else {
      SameIdsDistinct(quieted, SyncAlert(findings, id, alert, generation));
    }
  }

  lemma ActTouchesOne(findings: seq<Finding>, id: string, action: Action)
    ensures |Act(findings, id, action)| == |findings|
    ensures forall i | 0 <= i < |findings| && findings[i].findingId != id :: Act(findings, id, action)[i] == findings[i]
  {
  }

  lemma ActKeepsIds(findings: seq<Finding>, id: string, action: Action)
    requires Distinct(findings, FindingId)
    ensures Distinct(Act(findings, id, action), FindingId)
  {
    SameIdsDistinct(findings, Act(findings, id, action));
  }
}
