/**
 * The multi-agent generation engine: proposals are merged into a candidate,
 * the candidate is scored, and after all rounds the variants are stably
 * sorted by composite score (highest first) and ranked 1..n.
 *
 * The agents' random choices, the random scores and the uuid of each
 * candidate are inputs (`RoundInput`); database persistence is not modelled.
 */
module Orchestrator {

  import opened Common
  import opened Dicts
  import opened GenerationModels

  /** One agent's contribution to a round: its name and an attribute map. */
  datatype Proposal = Proposal(kind: string, data: Dict<string, string>)

  datatype Candidate = Candidate(id: string, labelText: string, metadata: Dict<string, string>)

  ghost predicate ProposalsValid(ps: seq<Proposal>)
  {
    forall i :: 0 <= i < |ps| ==> Valid(ps[i].data)
  }

  // ---------------------------------------------------------------------
  // Synthesizer.merge
  // ---------------------------------------------------------------------

  /** The metadata map after `meta.update(p.data)` for each proposal in turn. */
  function MergeMeta(ps: seq<Proposal>): (m: Dict<string, string>)
    requires ProposalsValid(ps)
    ensures Valid(m)
    decreases |ps|
  {
    if ps == [] then Empty()
    else Update(MergeMeta(ps[..|ps| - 1]), ps[|ps| - 1].data)
  }

  /** `"_".join(f"{k}:{v}" for k, v in meta.items())`. */
  function Label(meta: Dict<string, string>): string
    requires Valid(meta)
  {
    Join("_", LabelParts(meta))
  }

  function LabelParts(meta: Dict<string, string>): (parts: seq<string>)
    requires Valid(meta)
    ensures |parts| == |meta.keys|
    ensures forall i :: 0 <= i < |parts| ==> parts[i] == meta.keys[i] + ":" + meta.vals[meta.keys[i]]
  {
    seq(|meta.keys|, i requires 0 <= i < |meta.keys| => meta.keys[i] + ":" + meta.vals[meta.keys[i]])
  }

  /** `Synthesizer.merge`: the candidate's id is the fresh uuid supplied by the caller. */
  function Merge(ps: seq<Proposal>, id: string): (c: Candidate)
    requires ProposalsValid(ps)
    ensures c.id == id && Valid(c.metadata)
  {
    var meta := MergeMeta(ps);
    Candidate(id, Label(meta), meta)
  }

  /** The value of `k` in the last proposal that sets it: the reference for last-write-wins. */
  function LastProposalValue(ps: seq<Proposal>, k: string): Option<string>
    decreases |ps|
  {
    if ps == [] then None
    else if k in ps[|ps| - 1].data.vals then Some(ps[|ps| - 1].data.vals[k])
    else LastProposalValue(ps[..|ps| - 1], k)
  }

  /** Every key of every proposal, proposal after proposal, each proposal's keys in its own order. */
  function AllKeys(ps: seq<Proposal>): seq<string>
    decreases |ps|
  {
    if ps == [] then [] else AllKeys(ps[..|ps| - 1]) + ps[|ps| - 1].data.keys
  }

  lemma {:induction false} LastForItems(d: map<string, string>, x: Dict<string, string>, k: string)
    requires Valid(x)
    ensures LastFor(d, Items(x), k) == if k in x.vals then Some(x.vals[k]) else if k in d then Some(d[k]) else None
  {
    LastForDistinctPrefix(d, x, |x.keys|, k);
    assert Items(x)[..|x.keys|] == Items(x);
    assert x.keys[..|x.keys|] == x.keys;
  }

  lemma {:induction false} LastForDistinctPrefix(d: map<string, string>, x: Dict<string, string>, n: nat, k: string)
    requires Valid(x) && n <= |x.keys|
    ensures LastFor(d, Items(x)[..n], k) ==
      if k in x.keys[..n] then Some(x.vals[k]) else if k in d then Some(d[k]) else None
  {
    if n > 0 {
      var items := Items(x)[..n];
      assert items[..n - 1] == Items(x)[..n - 1];
      LastForDistinctPrefix(d, x, n - 1, k);
      assert x.keys[..n] == x.keys[..n - 1] + [x.keys[n - 1]];
      if k == x.keys[n - 1] {
        assert k !in x.keys[..n - 1];
      }
    } else {
      assert Items(x)[..0] == [];
    }
  }

  /**
   * Last write wins: a key is in the merged metadata exactly when some
   * proposal sets it, and then it holds the value of the last such proposal.
   */
  lemma {:induction false} MergeLastWriteWins(ps: seq<Proposal>, k: string)
    requires ProposalsValid(ps)
    ensures k in MergeMeta(ps).vals <==> LastProposalValue(ps, k).Some?
    ensures k in MergeMeta(ps).vals ==> MergeMeta(ps).vals[k] == LastProposalValue(ps, k).value
    decreases |ps|
  {
    if ps != [] {
      var init := ps[..|ps| - 1];
      var last := ps[|ps| - 1].data;
      MergeLastWriteWins(init, k);
      PutAllValues(MergeMeta(init), Items(last), k);
      LastForItems(MergeMeta(init).vals, last, k);
    }
  }

  lemma {:induction false} LastProposalValueSome(ps: seq<Proposal>, k: string)
    ensures LastProposalValue(ps, k).Some? <==> exists i :: 0 <= i < |ps| && k in ps[i].data.vals
    decreases |ps|
  {
    if ps != [] {
      var init := ps[..|ps| - 1];
      LastProposalValueSome(init, k);
      if exists i :: 0 <= i < |ps| && k in ps[i].data.vals {
        var i :| 0 <= i < |ps| && k in ps[i].data.vals;
        if i < |ps| - 1 { assert k in init[i].data.vals; }
      }
    }
  }

  /** The merged keys are exactly the union of the proposals' keys. */
  lemma MergeKeysAreUnion(ps: seq<Proposal>)
    requires ProposalsValid(ps)
    ensures MergeMeta(ps).vals.Keys == set i, k | 0 <= i < |ps| && k in ps[i].data.vals :: k
  {
    var u := set i, k | 0 <= i < |ps| && k in ps[i].data.vals :: k;
    forall k ensures k in MergeMeta(ps).vals <==> k in u {
      MergeLastWriteWins(ps, k);
      LastProposalValueSome(ps, k);
    }
  }

  /**
   * The merged key order (and so the label order) is first-appearance order:
   * a key set again later keeps the position where it first appeared.
   */
  lemma {:induction false} MergeKeyOrder(ps: seq<Proposal>)
    requires ProposalsValid(ps)
    ensures MergeMeta(ps).keys == AppendNew([], AllKeys(ps))
    decreases |ps|
  {
    if ps != [] {
      var init := ps[..|ps| - 1];
      var last := ps[|ps| - 1].data;
      MergeKeyOrder(init);
      PutAllKeys(MergeMeta(init), Items(last));
      assert FirstOf(Items(last)) == last.keys;
      AppendNewConcat([], AllKeys(init), last.keys);
    }
  }

  /**
   * The label lists one `key:value` part per merged key, in first-appearance
   * order, and each part carries the value of the last proposal that set the key.
   */
  lemma MergeLabel(ps: seq<Proposal>, id: string)
    requires ProposalsValid(ps)
    ensures var m := Merge(ps, id).metadata;
      && m.keys == AppendNew([], AllKeys(ps))
      && |LabelParts(m)| == |m.keys|
      && forall i :: 0 <= i < |m.keys| ==>
           && LastProposalValue(ps, m.keys[i]).Some?
           && LabelParts(m)[i] == m.keys[i] + ":" + LastProposalValue(ps, m.keys[i]).value
  {
    MergeKeyOrder(ps);
    var m := MergeMeta(ps);
    assert Merge(ps, id).metadata == m;
    forall i | 0 <= i < |m.keys|
      ensures LastProposalValue(ps, m.keys[i]).Some?
      ensures LabelParts(m)[i] == m.keys[i] + ":" + LastProposalValue(ps, m.keys[i]).value
    {
      MergeLastWriteWins(ps, m.keys[i]);
    }
  }

  /** Merging no proposals gives empty metadata and the empty label. */
  lemma MergeEmpty(id: string)
    ensures Merge([], id).metadata.vals == map[] && Merge([], id).metadata.keys == []
    ensures Merge([], id).labelText == ""
  {
  }

  /** `Critic.review`: the critic raises no objections. */
  function Review(c: Candidate): (objections: seq<string>)
    ensures |objections| == 0
  {
    []
  }

  // ---------------------------------------------------------------------
  // score_candidate
  // ---------------------------------------------------------------------

  /** The five per-dimension scores drawn for one candidate. */
  datatype Draws = Draws(aesthetic: real, sustainability: real, cost: real, accessibility: real, emotion: real)

  function DimensionScores(d: Draws): map<string, real>
  {
    map["aesthetic" := d.aesthetic, "sustainability" := d.sustainability, "cost" := d.cost,
        "accessibility" := d.accessibility, "emotion" := d.emotion]
  }

  /**
   * `sum(scores[k] * getattr(weights, k) for k in fields)`: a field with no
   * score entry is a KeyError (reported with its name), never a zero term.
   */
  function WeightedSum(scores: map<string, real>, w: Weights, fields: seq<string>): (r: Result<real, string>)
    requires forall k :: k in fields ==> k in WeightFields
    decreases |fields|
  {
    if fields == [] then Ok(0.0)
    else
      var k := fields[0];
      if k !in scores then Err(k)
      else match WeightedSum(scores, w, fields[1..])
        case Ok(rest) => Ok(scores[k] * WeightOf(w, k).value + rest)
        case Err(e) => Err(e)
  }

  /** The composite's reference definition: the dot product of scores and weights. */
  function Dot(d: Draws, w: Weights): real
  {
    d.aesthetic * w.aesthetic + d.sustainability * w.sustainability + d.cost * w.cost
    + d.accessibility * w.accessibility + d.emotion * w.emotion
  }

  /** The sum fails exactly when some field has no score, and it names the first such field. */
  lemma {:induction false} WeightedSumFailsOnMissing(scores: map<string, real>, w: Weights, fields: seq<string>)
    requires forall k :: k in fields ==> k in WeightFields
    ensures WeightedSum(scores, w, fields).Err? <==> exists k :: k in fields && k !in scores
    ensures WeightedSum(scores, w, fields).Err? ==>
      var e := WeightedSum(scores, w, fields).error;
      e in fields && e !in scores
    decreases |fields|
  {
    if fields != [] {
      WeightedSumFailsOnMissing(scores, w, fields[1..]);
      assert fields == [fields[0]] + fields[1..];
    }
  }

  /** `score_candidate`: five dimension scores plus their weighted composite. */
  function ScoreCandidate(c: Candidate, w: Weights, d: Draws): (scores: map<string, real>)
  {
    var base := DimensionScores(d);
    CompositeIsDot(d, w);
    base["composite" := WeightedSum(base, w, WeightFields).value]
  }

  /** One step of the sum: a scored field adds its weighted score to the rest. */
  lemma WeightedSumStep(scores: map<string, real>, w: Weights, k: string, rest: seq<string>, total: real)
    requires k in WeightFields && forall f :: f in rest ==> f in WeightFields
    requires k in scores && WeightedSum(scores, w, rest) == Ok(total)
    ensures WeightedSum(scores, w, [k] + rest) == Ok(scores[k] * WeightOf(w, k).value + total)
  {
    var f := [k] + rest;
    assert f[1..] == rest && f[0] == k;
    assert WeightedSum(scores, w, f).Ok?;
    assert WeightedSum(scores, w, rest).value == total;
    assert WeightedSum(scores, w, f).value == scores[k] * WeightOf(w, k).value + total;
  }

  /** Unrolls the sum over five scored fields. */
  lemma WeightedSumFive(s: map<string, real>, w: Weights, k1: string, k2: string, k3: string, k4: string, k5: string)
    requires k1 in WeightFields && k2 in WeightFields && k3 in WeightFields && k4 in WeightFields && k5 in WeightFields
    requires k1 in s && k2 in s && k3 in s && k4 in s && k5 in s
    ensures WeightedSum(s, w, [k1, k2, k3, k4, k5]) ==
      Ok(s[k1] * WeightOf(w, k1).value + (s[k2] * WeightOf(w, k2).value + (s[k3] * WeightOf(w, k3).value
         + (s[k4] * WeightOf(w, k4).value + (s[k5] * WeightOf(w, k5).value + 0.0)))))
  {
    var r0: seq<string> := [];
    WeightedSumStep(s, w, k5, r0, 0.0);
    var r1, t1 := [k5] + r0, s[k5] * WeightOf(w, k5).value + 0.0;
    WeightedSumStep(s, w, k4, r1, t1);
    var r2, t2 := [k4] + r1, s[k4] * WeightOf(w, k4).value + t1;
    WeightedSumStep(s, w, k3, r2, t2);
    var r3, t3 := [k3] + r2, s[k3] * WeightOf(w, k3).value + t2;
    WeightedSumStep(s, w, k2, r3, t3);
    var r4, t4 := [k2] + r3, s[k2] * WeightOf(w, k2).value + t3;
    WeightedSumStep(s, w, k1, r4, t4);
    assert [k1] + r4 == [k1, k2, k3, k4, k5];
  }

  /** Each weight field looks up its own score and its own weight. */
  lemma ScoreTerms(d: Draws, w: Weights)
    ensures var s := DimensionScores(d);
      && s["aesthetic"] * WeightOf(w, "aesthetic").value == d.aesthetic * w.aesthetic
      && s["sustainability"] * WeightOf(w, "sustainability").value == d.sustainability * w.sustainability
      && s["cost"] * WeightOf(w, "cost").value == d.cost * w.cost
      && s["accessibility"] * WeightOf(w, "accessibility").value == d.accessibility * w.accessibility
      && s["emotion"] * WeightOf(w, "emotion").value == d.emotion * w.emotion
  {
    var s := DimensionScores(d);
    assert s["aesthetic"] == d.aesthetic && WeightOf(w, "aesthetic").value == w.aesthetic;
    assert s["sustainability"] == d.sustainability && WeightOf(w, "sustainability").value == w.sustainability;
    assert s["cost"] == d.cost && WeightOf(w, "cost").value == w.cost;
    assert s["accessibility"] == d.accessibility && WeightOf(w, "accessibility").value == w.accessibility;
  }

  /** Over the five weight fields of a full score map, the sum is the dot product. */
  lemma CompositeIsDot(d: Draws, w: Weights)
    ensures WeightedSum(DimensionScores(d), w, WeightFields) == Ok(Dot(d, w))
  {
    var s := DimensionScores(d);
    WeightedSumFive(s, w, "aesthetic", "sustainability", "cost", "accessibility", "emotion");
    ScoreTerms(d, w);
    assert WeightFields == ["aesthetic", "sustainability", "cost", "accessibility", "emotion"];
    assert WeightedSum(s, w, WeightFields).value == Dot(d, w);
  }

  /** The score map has exactly the five dimensions plus `composite`, which is the dot product. */
  lemma ScoreShape(c: Candidate, w: Weights, d: Draws)
    ensures ScoreCandidate(c, w, d).Keys ==
      {"aesthetic", "sustainability", "cost", "accessibility", "emotion", "composite"}
    ensures ScoreCandidate(c, w, d)["composite"] == Dot(d, w)
    ensures ScoreCandidate(c, w, d)["cost"] == d.cost
  {
    CompositeIsDot(d, w);
  }

  // ---------------------------------------------------------------------
  // run_generation: rounds, stable sort by composite (descending), ranks
  // ---------------------------------------------------------------------

  /** What one round draws from its environment: the gathered proposals, the scores and the uuid. */
  datatype RoundInput = RoundInput(proposals: seq<Proposal>, draws: Draws, id: string)

  /** The variant one round produces before ranking: rank 0 and no assets. */
  function RoundVariant(r: RoundInput, w: Weights): (v: VariantOut)
    requires ProposalsValid(r.proposals)
  {
    var c := Merge(r.proposals, r.id);
    VariantOut(c.id, c.labelText, Some(c.metadata), Some(ScoreCandidate(c, w, r.draws)), 0, [])
  }

  /** `range(n)` runs no rounds for a negative count. */
  function Rounds(n: int): nat
  {
    if n < 0 then 0 else n
  }

  /** The variants of the first `n` rounds, in round order, before sorting. */
  function RoundVariants(n: int, w: Weights, rounds: nat -> RoundInput): (vs: seq<VariantOut>)
    requires forall i: nat :: ProposalsValid(rounds(i).proposals)
    ensures |vs| == Rounds(n)
    ensures forall i :: 0 <= i < |vs| ==> vs[i] == RoundVariant(rounds(i), w)
  {
    seq(Rounds(n), i requires 0 <= i => RoundVariant(rounds(i), w))
  }

  /** The candidates of the first `n` rounds, in round order. */
  function RoundCandidates(n: int, rounds: nat -> RoundInput): (cs: seq<Candidate>)
    requires forall i: nat :: ProposalsValid(rounds(i).proposals)
    ensures |cs| == Rounds(n)
    ensures forall i :: 0 <= i < |cs| ==> cs[i] == Merge(rounds(i).proposals, rounds(i).id)
  {
    seq(Rounds(n), i requires 0 <= i => Merge(rounds(i).proposals, rounds(i).id))
  }

  /** A sequence that agrees with `init` and then ends in `last` is `init + [last]`. */
  lemma Snoc<T>(whole: seq<T>, init: seq<T>, last: T)
    requires |whole| == |init| + 1 && whole[|init|] == last
    requires forall i :: 0 <= i < |init| ==> whole[i] == init[i]
    ensures whole == init + [last]
  {
  }

  /** One more round appends its variant. */
  lemma RoundVariantsSnoc(k: nat, w: Weights, rounds: nat -> RoundInput)
    requires forall i: nat :: ProposalsValid(rounds(i).proposals)
    ensures RoundVariants(k + 1, w, rounds) == RoundVariants(k, w, rounds) + [RoundVariant(rounds(k), w)]
  {
    Snoc(RoundVariants(k + 1, w, rounds), RoundVariants(k, w, rounds), RoundVariant(rounds(k), w));
  }

  /** One more round appends its candidate. */
  lemma RoundCandidatesSnoc(k: nat, rounds: nat -> RoundInput)
    requires forall i: nat :: ProposalsValid(rounds(i).proposals)
    ensures RoundCandidates(k + 1, rounds) == RoundCandidates(k, rounds) + [Merge(rounds(k).proposals, rounds(k).id)]
  {
    Snoc(RoundCandidates(k + 1, rounds), RoundCandidates(k, rounds), Merge(rounds(k).proposals, rounds(k).id));
  }

  /**
   * The sort key: `v.score.get("composite", 0)`.  The `None` branch is
   * unreachable: every round variant has a score map (`v.score.get` on
   * `None` would raise); it is given 0 only to make the function total.
   */
  function Key(v: VariantOut): real
  {
    if v.score.Some? && "composite" in v.score.value then v.score.value["composite"] else 0.0
  }

  /** Stable insertion of `x` into a list sorted by descending key: `x` goes after every element whose key is at least its own. */
  function Insert(x: VariantOut, s: seq<VariantOut>): (r: seq<VariantOut>)
    ensures |r| == |s| + 1
    decreases |s|
  {
    if s == [] then [x]
    else if Key(s[|s| - 1]) >= Key(x) then s + [x]
    else Insert(x, s[..|s| - 1]) + [s[|s| - 1]]
  }

  /** `sorted(s, key=Key, reverse=True)`, stable. */
  function SortDesc(s: seq<VariantOut>): (r: seq<VariantOut>)
    ensures |r| == |s|
    decreases |s|
  {
    if s == [] then [] else Insert(s[|s| - 1], SortDesc(s[..|s| - 1]))
  }

  ghost predicate SortedDesc(s: seq<VariantOut>)
  {
    forall i, j :: 0 <= i < j < |s| ==> Key(s[i]) >= Key(s[j])
  }

  /** The elements of `s` with key `c`, in order. */
  function WithKey(s: seq<VariantOut>, c: real): seq<VariantOut>
    decreases |s|
  {
    if s == [] then []
    else if Key(s[|s| - 1]) == c then WithKey(s[..|s| - 1], c) + [s[|s| - 1]]
    else WithKey(s[..|s| - 1], c)
  }

  lemma {:induction false} InsertMultiset(x: VariantOut, s: seq<VariantOut>)
    ensures multiset(Insert(x, s)) == multiset(s) + multiset{x}
    decreases |s|
  {
    if s != [] && Key(s[|s| - 1]) < Key(x) {
      InsertMultiset(x, s[..|s| - 1]);
      assert s == s[..|s| - 1] + [s[|s| - 1]];
    }
  }

  lemma {:induction false} InsertSorted(x: VariantOut, s: seq<VariantOut>)
    requires SortedDesc(s)
    ensures SortedDesc(Insert(x, s))
    ensures s != [] && Key(s[|s| - 1]) < Key(x) ==> Insert(x, s)[|s|] == s[|s| - 1]
    decreases |s|
  {
    if s != [] && Key(s[|s| - 1]) < Key(x) {
      var init := s[..|s| - 1];
      InsertSorted(x, init);
      InsertMultiset(x, init);
      var r := Insert(x, s);
      var ri := Insert(x, init);
      assert r == ri + [s[|s| - 1]];
      forall i | 0 <= i < |ri| ensures Key(ri[i]) >= Key(s[|s| - 1]) {
        assert ri[i] in multiset(ri);
        assert ri[i] == x || ri[i] in multiset(init);
        if ri[i] != x {
          var k :| 0 <= k < |init| && init[k] == ri[i];
        }
      }
    }
  }

  lemma {:induction false} InsertWithKey(x: VariantOut, s: seq<VariantOut>, c: real)
    ensures WithKey(Insert(x, s), c) == if Key(x) == c then WithKey(s, c) + [x] else WithKey(s, c)
    decreases |s|
  {
    if s == [] {
      assert WithKey([x], c) == WithKey([], c) + (if Key(x) == c then [x] else []);
    } else if Key(s[|s| - 1]) >= Key(x) {
      var r := s + [x];
      assert r[..|r| - 1] == s;
    } else {
      var init := s[..|s| - 1];
      InsertWithKey(x, init, c);
      var r := Insert(x, init) + [s[|s| - 1]];
      assert r[..|r| - 1] == Insert(x, init);
    }
  }

  /** The result is ordered by composite, highest first. */
  lemma {:induction false} SortDescSorted(s: seq<VariantOut>)
    ensures SortedDesc(SortDesc(s))
    decreases |s|
  {
    if s != [] {
      SortDescSorted(s[..|s| - 1]);
      InsertSorted(s[|s| - 1], SortDesc(s[..|s| - 1]));
    }
  }

  /** The result is a permutation of the input. */
  lemma {:induction false} SortDescPermutation(s: seq<VariantOut>)
    ensures multiset(SortDesc(s)) == multiset(s)
    decreases |s|
  {
    if s != [] {
      SortDescPermutation(s[..|s| - 1]);
      InsertMultiset(s[|s| - 1], SortDesc(s[..|s| - 1]));
      assert s == s[..|s| - 1] + [s[|s| - 1]];
    }
  }

  /** Stability: variants with equal composite keep their generation order. */
  lemma {:induction false} SortDescStable(s: seq<VariantOut>, c: real)
    ensures WithKey(SortDesc(s), c) == WithKey(s, c)
    decreases |s|
  {
    if s != [] {
      SortDescStable(s[..|s| - 1], c);
      InsertWithKey(s[|s| - 1], SortDesc(s[..|s| - 1]), c);
    }
  }

  /** `for idx, v in enumerate(variants, start=1): v.rank = idx`. */
  function AssignRanks(s: seq<VariantOut>): (r: seq<VariantOut>)
    ensures |r| == |s|
  {
    seq(|s|, i requires 0 <= i < |s| => s[i].(rank := i + 1))
  }

  /** `rank` set back to 0, the value every variant has before ranking. */
  function Unranked(s: seq<VariantOut>): seq<VariantOut>
  {
    seq(|s|, i requires 0 <= i < |s| => s[i].(rank := 0))
  }

  /** Ranking an unranked sorted batch and then forgetting the ranks gives the sorted batch back. */
  lemma UnrankedAfterRanking(gen: seq<VariantOut>)
    requires forall i :: 0 <= i < |gen| ==> gen[i].rank == 0
    ensures Unranked(AssignRanks(SortDesc(gen))) == SortDesc(gen)
  {
    var sorted := SortDesc(gen);
    SortDescPermutation(gen);
    var u := Unranked(AssignRanks(sorted));
    forall i | 0 <= i < |sorted| ensures u[i] == sorted[i] {
      assert sorted[i] in multiset(gen);
      assert sorted[i].rank == 0;
      assert u[i] == sorted[i].(rank := i + 1).(rank := 0);
    }
    assert u == sorted;
  }

  /**
   * The outcome of `run_generation(n, w)`: exactly one variant per round,
   * ranks 1..n by position, composites non-increasing, and apart from the
   * rank a permutation of the round results in which equal composites keep
   * generation order.
   */
  lemma GenerationRanked(n: int, w: Weights, rounds: nat -> RoundInput)
    requires forall i: nat :: ProposalsValid(rounds(i).proposals)
    ensures var gen := RoundVariants(n, w, rounds);
      var out := AssignRanks(SortDesc(gen));
      && |out| == Rounds(n)
      && (forall i :: 0 <= i < |out| ==> out[i].rank == i + 1)
      && (forall i, j :: 0 <= i < j < |out| ==> Key(out[i]) >= Key(out[j]))
      && multiset(Unranked(out)) == multiset(gen)
      && (forall c :: WithKey(Unranked(out), c) == WithKey(gen, c))
      && (forall i :: 0 <= i < |gen| ==> gen[i].rank == 0 && gen[i].assets == [])
  {
    var gen := RoundVariants(n, w, rounds);
    var sorted := SortDesc(gen);
    SortDescSorted(gen);
    SortDescPermutation(gen);
    UnrankedAfterRanking(gen);
    forall c ensures WithKey(sorted, c) == WithKey(gen, c) {
      SortDescStable(gen, c);
    }
  }

  /** The generation state shared across rounds; only the candidate list is used by this engine. */
  class DesignState {
    var candidates: seq<Candidate>

    constructor ()
      ensures candidates == []
    {
      candidates := [];
    }
  }

  /** Where `Insert` puts `x`: after the last element whose key is at least `Key(x)`. */
  lemma {:induction false} InsertAt(x: VariantOut, s: seq<VariantOut>, j: nat)
    requires j <= |s|
    requires forall k :: j <= k < |s| ==> Key(s[k]) < Key(x)
    requires j == 0 || Key(s[j - 1]) >= Key(x)
    ensures Insert(x, s) == s[..j] + [x] + s[j..]
    decreases |s|
  {
    if |s| > j {
      var init, last := s[..|s| - 1], s[|s| - 1];
      assert Insert(x, s) == Insert(x, init) + [last];
      InsertAt(x, init, j);
      assert init[..j] == s[..j];
      assert init[j..] + [last] == s[j..];
      assert (s[..j] + [x] + init[j..]) + [last] == s[..j] + [x] + (init[j..] + [last]);
    } else {
      assert s[..j] == s && s[j..] == [];
    }
  }

  /** A sequence that holds `s` with `x` placed at the position `Insert` picks is `Insert(x, s)`. */
  lemma PlacedIsInsert(t: seq<VariantOut>, s: seq<VariantOut>, x: VariantOut, j: nat)
    requires |t| == |s| + 1 && j <= |s|
    requires forall k :: 0 <= k < j ==> t[k] == s[k]
    requires t[j] == x
    requires forall k :: j < k < |t| ==> t[k] == s[k - 1]
    requires forall k :: j <= k < |s| ==> Key(s[k]) < Key(x)
    requires j == 0 || Key(s[j - 1]) >= Key(x)
    ensures t == Insert(x, s)
  {
    InsertAt(x, s, j);
    var expected := s[..j] + [x] + s[j..];
    forall k | 0 <= k < |t| ensures t[k] == expected[k] {
      if k < j {
        assert expected[k] == s[k];
      } else if k > j {
        assert expected[k] == s[k - 1];
      }
    }
  }

  /** One insertion-sort step: moves `a[i]` left past the elements of `a[..i]` with a smaller key. */
  method InsertLast(a: array<VariantOut>, i: nat)
    requires i < a.Length
    modifies a
    ensures a[..i + 1] == Insert(old(a[i]), old(a[..i]))
    ensures forall k :: i < k < a.Length ==> a[k] == old(a[k])
  {
    ghost var s := a[..i];
    var x := a[i];
    var kx := Key(x);
    var j := i;
    while j > 0 && Key(a[j - 1]) < kx
      invariant 0 <= j <= i
      invariant forall k :: 0 <= k < j ==> a[k] == s[k]
      invariant forall k :: j < k <= i ==> a[k] == s[k - 1]
      invariant forall k :: i < k < a.Length ==> a[k] == old(a[k])
      invariant forall k :: j <= k < i ==> Key(s[k]) < kx
    {
      a[j] := a[j - 1];
      j := j - 1;
    }
    a[j] := x;
    PlacedIsInsert(a[..i + 1], s, x, j);
  }

  /** Stable in-place sort of `a` by descending composite (the effect of `variants.sort(..., reverse=True)`). */
  method SortByCompositeDesc(a: array<VariantOut>)
    modifies a
    ensures a[..] == SortDesc(old(a[..]))
  {
    ghost var orig := a[..];
    var i := 0;
    while i < a.Length
      invariant 0 <= i <= a.Length
      invariant a[..i] == SortDesc(orig[..i])
      invariant forall k :: i <= k < a.Length ==> a[k] == orig[k]
    {
      InsertLast(a, i);
      assert orig[..i + 1][..i] == orig[..i];
      i := i + 1;
    }
    assert orig[..a.Length] == orig;
  }

  /** Gives each variant its 1-based position as rank. */
  method AssignRanksInPlace(a: array<VariantOut>)
    modifies a
    ensures a[..] == AssignRanks(old(a[..]))
  {
    var idx := 0;
    while idx < a.Length
      invariant 0 <= idx <= a.Length
      invariant forall k :: 0 <= k < idx ==> a[k] == old(a[k]).(rank := k + 1)
      invariant forall k :: idx <= k < a.Length ==> a[k] == old(a[k])
    {
      a[idx] := a[idx].(rank := idx + 1);
      idx := idx + 1;
    }
  }

  /** `generate_round`: merge, review and score one round, recording its candidate in `state`. */
  method GenerateRound(state: DesignState, r: RoundInput, w: Weights) returns (v: VariantOut)
    requires ProposalsValid(r.proposals)
    modifies state
    ensures state.candidates == old(state.candidates) + [Merge(r.proposals, r.id)]
    ensures v == RoundVariant(r, w)
  {
    var candidate := Merge(r.proposals, r.id);
    var _ := Review(candidate);
    var scores := ScoreCandidate(candidate, w, r.draws);
    state.candidates := state.candidates + [candidate];
    v := VariantOut(candidate.id, candidate.labelText, Some(candidate.metadata), Some(scores), 0, []);
  }

  /** `run_loop`: `n` rounds in order, each variant appended as it is produced. */
  method RunLoop(state: DesignState, n: int, w: Weights, rounds: nat -> RoundInput) returns (generated: seq<VariantOut>)
    requires forall i: nat :: ProposalsValid(rounds(i).proposals)
    requires state.candidates == []
    modifies state
    ensures generated == RoundVariants(n, w, rounds)
    ensures state.candidates == RoundCandidates(n, rounds)
  {
    generated := [];
    var round := 0;
    while round < n
      invariant 0 <= round <= Rounds(n)
      invariant generated == RoundVariants(round, w, rounds)
      invariant state.candidates == RoundCandidates(round, rounds)
    {
      RoundVariantsSnoc(round, w, rounds);
      RoundCandidatesSnoc(round, rounds);
      var variant := GenerateRound(state, rounds(round), w);
      generated := generated + [variant];
      round := round + 1;
    }
  }

  /**
   * `run_generation(n, weights)`: the rounds in order, then a stable
   * descending sort by composite and rank assignment by position.
   */
  method RunGeneration(n: int, w: Weights, rounds: nat -> RoundInput)
    returns (variants: seq<VariantOut>, candidates: seq<Candidate>)
    requires forall i: nat :: ProposalsValid(rounds(i).proposals)
    ensures candidates == RoundCandidates(n, rounds)
    ensures variants == AssignRanks(SortDesc(RoundVariants(n, w, rounds)))
  {
    var state := new DesignState();
    var generated := RunLoop(state, n, w, rounds);
    var a := new VariantOut[|generated|](k requires 0 <= k < |generated| => generated[k]);
    assert a[..] == generated;
    SortByCompositeDesc(a);
    AssignRanksInPlace(a);
    variants := a[..];
    candidates := state.candidates;
  }

  // ---------------------------------------------------------------------
  // asyncio.run
  // ---------------------------------------------------------------------

  /** The `RuntimeError` `asyncio.run` raises in a thread that already runs an event loop. */
  const NestedLoopError: string := "asyncio.run() cannot be called from a running event loop"

  /**
   * What `run_generation(n, weights)` returns when it is entered from a
   * thread whose event loop is `loopRunning`: `asyncio.run(run_loop())`
   * then raises before the first round; otherwise the rounds run and their
   * variants come back ranked.
   */
  function GenerationOutcome(loopRunning: bool, n: int, w: Weights, rounds: nat -> RoundInput): (r: Result<seq<VariantOut>, string>)
    requires forall i: nat :: ProposalsValid(rounds(i).proposals)
    ensures r.Err? <==> loopRunning
    ensures r.Err? ==> r.error == NestedLoopError
    ensures r.Ok? ==> |r.value| == Rounds(n) && forall i :: 0 <= i < |r.value| ==> r.value[i].rank == i + 1
  {
    if loopRunning then Err(NestedLoopError)
    else
      GenerationRanked(n, w, rounds);
      Ok(AssignRanks(SortDesc(RoundVariants(n, w, rounds))))
  }

  /** `run_generation`, including the `asyncio.run` that drives its rounds. */
  method RunGenerationFrom(loopRunning: bool, n: int, w: Weights, rounds: nat -> RoundInput)
    returns (r: Result<seq<VariantOut>, string>)
    requires forall i: nat :: ProposalsValid(rounds(i).proposals)
    ensures r == GenerationOutcome(loopRunning, n, w, rounds)
  {
    if loopRunning {
      return Err(NestedLoopError);
    }
    var vs, _ := RunGeneration(n, w, rounds);
    r := Ok(vs);
  }
}
