/** The judge panel: aligning one judge's rulings with a draft's objections, and folding the panel
    into per-objection survival votes (src/mootloop/panels.py). */
module Panels {
  import opened Wrappers

  /** A basis as it was written, and as comparison sees it: stripped and lower-cased, Unicode included. */
  datatype Basis = Basis(text: string, key: string)

  datatype Objection = Objection(basis: Basis, text: string)

  /** One judge's ruling on one objection; `reasoning` is stripped of white space around it. */
  datatype Ruling = Ruling(basis: Basis, survives: bool, reasoning: string)

  datatype PanelResult = PanelResult(
    objectionIndex: nat, basis: Basis, survive: nat, total: nat, samples: seq<string>)
  {
    /** A rate of zero stands for an objection nobody ruled on. */
    function SurvivalRate(): real {
      if total == 0 then 0.0 else survive as real / total as real
    }
  }

  /** The ruling claimed by each objection, by index. */
  type Alignment = seq<Option<nat>>

  // --- specification ----------------------------------------------------------

  function FirstUnclaimed(prev: Alignment, key: string, rulings: seq<Ruling>, from: nat): (r: Option<nat>)
    requires from <= |rulings|
    ensures r.Some? ==> from <= r.value < |rulings|
    ensures r.Some? ==> rulings[r.value].basis.key == key && Some(r.value) !in prev
    ensures r.Some? ==> forall j: nat :: from <= j < r.value ==> rulings[j].basis.key != key || Some(j) in prev
    ensures r.None? ==> forall j: nat :: from <= j < |rulings| ==> rulings[j].basis.key != key || Some(j) in prev
    decreases |rulings| - from
  {
    if from == |rulings| then None
    else if rulings[from].basis.key == key && Some(from) !in prev then Some(from)
    else FirstUnclaimed(prev, key, rulings, from + 1)
  }

  /** The index-aligned ruling when it is a candidate, otherwise the first candidate. */
  function Choose(prev: Alignment, key: string, index: nat, rulings: seq<Ruling>): Option<nat> {
    if index < |rulings| && rulings[index].basis.key == key && Some(index) !in prev then Some(index)
    else FirstUnclaimed(prev, key, rulings, 0)
  }

  /** Claims by basis for the first `n` objections. */
  function ByBasis(objections: seq<Objection>, rulings: seq<Ruling>, n: nat): (a: Alignment)
    requires n <= |objections|
    ensures |a| == n
  {
    if n == 0 then []
    else
      var prev := ByBasis(objections, rulings, n - 1);
      prev + [Choose(prev, objections[n - 1].basis.key, n - 1, rulings)]
  }

  /** Then, for the first `n` objections, claims by position where nothing was claimed. */
  function ByPosition(a: Alignment, rulings: seq<Ruling>, n: nat): (b: Alignment)
    requires n <= |a|
    ensures |b| == |a|
  {
    if n == 0 then a
    else
      var prev := ByPosition(a, rulings, n - 1);
      if prev[n - 1].None? && n - 1 < |rulings| && Some(n - 1) !in prev
      then prev[n - 1 := Some(n - 1)] else prev
  }

  function Align(objections: seq<Objection>, rulings: seq<Ruling>): (a: Alignment)
    ensures |a| == |objections|
  {
    ByPosition(ByBasis(objections, rulings, |objections|), rulings, |objections|)
  }

  function Votes(a: Alignment, rulings: seq<Ruling>, survivingOnly: bool, index: nat): nat
    requires index < |a|
  {
    if a[index].Some? && a[index].value < |rulings| && (survivingOnly ==> rulings[a[index].value].survives)
    then 1 else 0
  }

  /** The panel's votes on one objection. */
  function PanelVotes(objections: seq<Objection>, judges: seq<seq<Ruling>>, survivingOnly: bool, index: nat): nat
    requires index < |objections|
  {
    if judges == [] then 0
    else
      PanelVotes(objections, judges[..|judges| - 1], survivingOnly, index)
      + Votes(Align(objections, judges[|judges| - 1]), judges[|judges| - 1], survivingOnly, index)
  }

  const MAX_SAMPLES := 3

  /** The first reasonings given for one objection, in the judges' order. */
  function Samples(objections: seq<Objection>, judges: seq<seq<Ruling>>, index: nat): (s: seq<string>)
    requires index < |objections|
    ensures |s| <= MAX_SAMPLES
  {
    if judges == [] then []
    else
      var before := Samples(objections, judges[..|judges| - 1], index);
      before + Sampled(Align(objections, judges[|judges| - 1]), judges[|judges| - 1], |before|, index)
  }

  /** What one judge adds to `n` samples. */
  function Sampled(a: Alignment, rulings: seq<Ruling>, n: nat, index: nat): seq<string>
    requires index < |a|
  {
    if n < MAX_SAMPLES && a[index].Some? && a[index].value < |rulings| && rulings[a[index].value].reasoning != ""
    then [rulings[a[index].value].reasoning] else []
  }

  function ResultFor(objections: seq<Objection>, judges: seq<seq<Ruling>>, index: nat): PanelResult
    requires index < |objections|
  {
    PanelResult(index, objections[index].basis,
                PanelVotes(objections, judges, true, index), PanelVotes(objections, judges, false, index),
                Samples(objections, judges, index))
  }

  function FoldPanel(objections: seq<Objection>, judges: seq<seq<Ruling>>): seq<PanelResult> {
    seq(|objections|, i requires 0 <= i < |objections| => ResultFor(objections, judges, i))
  }

  // --- the loops ----------------------------------------------------------------

  /** The unclaimed rulings on one basis, in order. */
  method Candidates(rulings: seq<Ruling>, claimed: set<nat>, key: string) returns (candidates: seq<nat>)
    ensures forall c :: c in candidates <==> 0 <= c < |rulings| && c !in claimed && rulings[c].basis.key == key
    ensures forall c :: c in candidates ==> candidates[0] <= c
  {
    candidates := [];
    for j := 0 to |rulings|
      invariant forall c :: c in candidates <==> 0 <= c < j && c !in claimed && rulings[c].basis.key == key
      invariant forall c :: c in candidates ==> candidates[0] <= c
    {
      if j !in claimed && rulings[j].basis.key == key {
        assert candidates != [] ==> candidates[0] in candidates;
        candidates := candidates + [j];
      }
    }
  }

  ghost predicate Claims(claimed: set<nat>, a: Alignment) {
    forall j: nat :: j in claimed <==> Some(j) in a
  }

  lemma ChosenCandidate(prev: Alignment, claimed: set<nat>, candidates: seq<nat>, key: string, index: nat,
                        rulings: seq<Ruling>)
    requires Claims(claimed, prev)
    requires forall c :: c in candidates <==> 0 <= c < |rulings| && c !in claimed && rulings[c].basis.key == key
    requires forall c :: c in candidates ==> candidates[0] <= c
    ensures Choose(prev, key, index, rulings)
         == if candidates == [] then None else if index in candidates then Some(index) else Some(candidates[0])
  {
    if candidates != [] {
      assert candidates[0] in candidates;
    }
  }

  lemma ClaimAppended(claimed: set<nat>, a: Alignment, c: Option<nat>)
    requires Claims(claimed, a)
    ensures Claims(claimed + if c.Some? then {c.value} else {}, a + [c])
  {
    forall j: nat
      ensures Some(j) in a + [c] <==> Some(j) in a || Some(j) == c
    {
    }
  }

  lemma ClaimPlaced(claimed: set<nat>, a: Alignment, i: nat)
    requires i < |a| && a[i].None? && Claims(claimed, a)
    ensures Claims(claimed + {i}, a[i := Some(i)])
  {
    var b := a[i := Some(i)];
    assert b[i] == Some(i);
    forall j: nat | Some(j) in a
      ensures Some(j) in b
    {
      var t :| 0 <= t < |a| && a[t] == Some(j);
      assert b[t] == Some(j);
    }
  }

  /** First pass over the objections; `claimed` is kept beside `aligned`. */
  method ClaimByBasis(objections: seq<Objection>, rulings: seq<Ruling>)
    returns (aligned: Alignment, claimed: set<nat>)
    ensures aligned == ByBasis(objections, rulings, |objections|) && Claims(claimed, aligned)
  {
    aligned, claimed := [], {};
    for index := 0 to |objections|
      invariant aligned == ByBasis(objections, rulings, index)
      invariant Claims(claimed, aligned)
    {
      var key := objections[index].basis.key;
      var candidates := Candidates(rulings, claimed, key);
      ChosenCandidate(aligned, claimed, candidates, key, index, rulings);
      var chosen := None;
      if candidates != [] {
        chosen := Some(if index in candidates then index else candidates[0]);
      }
      ClaimAppended(claimed, aligned, chosen);
      claimed := claimed + if chosen.Some? then {chosen.value} else {};
      aligned := aligned + [chosen];
    }
  }

  method AlignRulings(objections: seq<Objection>, rulings: seq<Ruling>) returns (aligned: Alignment)
    ensures aligned == Align(objections, rulings)
  {
    var claimed: set<nat>;
    aligned, claimed := ClaimByBasis(objections, rulings);
    ghost var first := aligned;
    for index := 0 to |objections|
      invariant |aligned| == |objections| && aligned == ByPosition(first, rulings, index)
      invariant Claims(claimed, aligned)
    {
      if aligned[index].None? && index < |rulings| && index !in claimed {
        ClaimPlaced(claimed, aligned, index);
        claimed := claimed + {index};
        aligned := aligned[index := Some(index)];
      }
    }
  }

  /** The vote loop of one objection. */
  method ResultOf(objections: seq<Objection>, judges: seq<seq<Ruling>>, aligned: seq<Alignment>, index: nat)
      returns (result: PanelResult)
    requires index < |objections| && |aligned| == |judges|
    requires forall i :: 0 <= i < |judges| ==> aligned[i] == Align(objections, judges[i])
    ensures result == ResultFor(objections, judges, index)
  {
    hide Align;
    var survive: nat, total: nat := 0, 0;
    var samples: seq<string> := [];
    for k := 0 to |judges|
      invariant survive == PanelVotes(objections, judges[..k], true, index)
      invariant total == PanelVotes(objections, judges[..k], false, index)
      invariant samples == Samples(objections, judges[..k], index)
    {
      assert judges[..k + 1][..k] == judges[..k];
      AlignedInRange(objections, judges[k]);
      var ruling := aligned[k][index];
      if ruling.Some? {
        total := total + 1;
        if judges[k][ruling.value].survives {
          survive := survive + 1;
        }
        if judges[k][ruling.value].reasoning != "" && |samples| < MAX_SAMPLES {
          samples := samples + [judges[k][ruling.value].reasoning];
        }
      }
    }
    assert judges[..|judges|] == judges;
    result := PanelResult(index, objections[index].basis, survive, total, samples);
  }

  method FoldObjectionResults(objections: seq<Objection>, judges: seq<seq<Ruling>>)
    returns (results: seq<PanelResult>)
    ensures results == FoldPanel(objections, judges)
  {
    var aligned: seq<Alignment> := [];
    for k := 0 to |judges|
      invariant |aligned| == k
      invariant forall i :: 0 <= i < k ==> aligned[i] == Align(objections, judges[i])
    {
      var a := AlignRulings(objections, judges[k]);
      aligned := aligned + [a];
    }
    results := [];
    for index := 0 to |objections|
      invariant |results| == index
      invariant forall i :: 0 <= i < index ==> results[i] == ResultFor(objections, judges, i)
    {
      var result := ResultOf(objections, judges, aligned, index);
      results := results + [result];
    }
  }

  // --- no ruling is used twice ---------------------------------------------------

  ghost predicate InRange(a: Alignment, rulings: seq<Ruling>) {
    forall i :: 0 <= i < |a| && a[i].Some? ==> a[i].value < |rulings|
  }

  ghost predicate NoneTwice(a: Alignment) {
    forall i, j :: 0 <= i < j < |a| && a[i].Some? && a[j].Some? ==> a[i].value != a[j].value
  }

  ghost predicate BasesAgree(a: Alignment, objections: seq<Objection>, rulings: seq<Ruling>)
    requires |a| <= |objections| && InRange(a, rulings)
  {
    forall i :: 0 <= i < |a| && a[i].Some? ==> rulings[a[i].value].basis.key == objections[i].basis.key
  }

  lemma {:induction false} ByBasisSound(objections: seq<Objection>, rulings: seq<Ruling>, n: nat)
    requires n <= |objections|
    ensures var a := ByBasis(objections, rulings, n);
      InRange(a, rulings) && NoneTwice(a) && BasesAgree(a, objections, rulings)
  {
    if n > 0 {
      ByBasisSound(objections, rulings, n - 1);
      var prev := ByBasis(objections, rulings, n - 1);
      var c := Choose(prev, objections[n - 1].basis.key, n - 1, rulings);
      forall i | 0 <= i < |prev| && c.Some? && prev[i].Some?
        ensures prev[i].value != c.value
      {
        assert prev[i] in prev;
      }
    }
  }

  lemma {:induction false} ByPositionSound(a: Alignment, rulings: seq<Ruling>, n: nat)
    requires n <= |a| && InRange(a, rulings) && NoneTwice(a)
    ensures var b := ByPosition(a, rulings, n); InRange(b, rulings) && NoneTwice(b)
  {
    if n > 0 {
      ByPositionSound(a, rulings, n - 1);
      var prev := ByPosition(a, rulings, n - 1);
      forall i | 0 <= i < |prev| && Some(n - 1) !in prev && prev[i].Some?
        ensures prev[i].value != n - 1
      {
        assert prev[i] in prev;
      }
    }
  }

  /** No ruling of one judge is used for two objections. */
  lemma NoRulingUsedTwice(objections: seq<Objection>, rulings: seq<Ruling>)
    ensures NoneTwice(Align(objections, rulings))
    ensures InRange(Align(objections, rulings), rulings)
  {
    ByBasisSound(objections, rulings, |objections|);
    ByPositionSound(ByBasis(objections, rulings, |objections|), rulings, |objections|);
  }

  lemma AlignedInRange(objections: seq<Objection>, rulings: seq<Ruling>)
    ensures InRange(Align(objections, rulings), rulings)
  {
    NoRulingUsedTwice(objections, rulings);
  }

  // --- how many rulings of a basis the first pass matches --------------------------

  function ObjectionsOf(objections: seq<Objection>, key: string, n: nat): nat
    requires n <= |objections|
  {
    if n == 0 then 0
    else ObjectionsOf(objections, key, n - 1) + if objections[n - 1].basis.key == key then 1 else 0
  }

  /** The objections of one basis, among the first `|a|`, that claimed a ruling. */
  function MatchedOf(a: Alignment, objections: seq<Objection>, key: string): nat
    requires |a| <= |objections|
  {
    if a == [] then 0
    else
      MatchedOf(a[..|a| - 1], objections, key)
      + if a[|a| - 1].Some? && objections[|a| - 1].basis.key == key then 1 else 0
  }

  function RulingsOf(rulings: seq<Ruling>, key: string): set<nat> {
    set j: nat | j < |rulings| && rulings[j].basis.key == key
  }

  ghost function ClaimedOf(a: Alignment, rulings: seq<Ruling>, key: string): set<nat> {
    set j: nat | j < |rulings| && rulings[j].basis.key == key && Some(j) in a
  }

  lemma ClaimOne(a: Alignment, c: Option<nat>, rulings: seq<Ruling>, key: string)
    requires c.Some? ==> c.value < |rulings| && c !in a
    ensures ClaimedOf(a + [c], rulings, key)
         == ClaimedOf(a, rulings, key)
            + if c.Some? && rulings[c.value].basis.key == key then {c.value} else {}
    ensures c.Some? ==> c.value !in ClaimedOf(a, rulings, key)
  {
    var b := a + [c];
    assert forall j: nat :: Some(j) in b <==> Some(j) in a || Some(j) == c;
  }

  /** The first pass matches exactly as many objections of each basis as there are both objections
      and rulings of it. */
  lemma {:induction false} FirstPassMatches(objections: seq<Objection>, rulings: seq<Ruling>, n: nat, key: string)
    requires n <= |objections|
    ensures var a := ByBasis(objections, rulings, n);
      && MatchedOf(a, objections, key) == |ClaimedOf(a, rulings, key)|
      && (MatchedOf(a, objections, key)
          == if ObjectionsOf(objections, key, n) <= |RulingsOf(rulings, key)|
             then ObjectionsOf(objections, key, n) else |RulingsOf(rulings, key)|)
  {
    if n == 0 {
      assert ClaimedOf([], rulings, key) == {};
    } else {
      FirstPassMatches(objections, rulings, n - 1, key);
      var prev := ByBasis(objections, rulings, n - 1);
      var c := Choose(prev, objections[n - 1].basis.key, n - 1, rulings);
      var a := ByBasis(objections, rulings, n);
      assert a[..|a| - 1] == prev;
      hide ByBasis, ClaimedOf, RulingsOf, Choose;
      ClaimOne(prev, c, rulings, key);
      assert ClaimedOf(prev, rulings, key) <= RulingsOf(rulings, key);
      SubsetSize(ClaimedOf(prev, rulings, key), RulingsOf(rulings, key));
      if objections[n - 1].basis.key == key {
        if c.None? {
          assert ClaimedOf(prev, rulings, key) == RulingsOf(rulings, key);
        } else {
          assert c.value in RulingsOf(rulings, key) - ClaimedOf(prev, rulings, key);
          SubsetSize(ClaimedOf(prev, rulings, key) + {c.value}, RulingsOf(rulings, key));
        }
      }
    }
  }

  lemma SubsetSize<T>(a: set<T>, b: set<T>)
    requires a <= b
    ensures |a| <= |b|
  {
    assert |b| == |a| + |b - a| by {
      assert b == a + (b - a);
    }
  }

  /** Lists of equal length whose bases agree position by position align to the identity. */
  lemma {:induction false} AgreeingListsAlign(objections: seq<Objection>, rulings: seq<Ruling>)
    requires |objections| == |rulings|
    requires forall i :: 0 <= i < |rulings| ==> objections[i].basis.key == rulings[i].basis.key
    ensures Align(objections, rulings) == seq(|objections|, i => Some(i))
  {
    AgreeingPrefix(objections, rulings, |objections|);
    FullyClaimed(ByBasis(objections, rulings, |objections|), rulings, |objections|);
  }

  lemma {:induction false} AgreeingPrefix(objections: seq<Objection>, rulings: seq<Ruling>, n: nat)
    requires n <= |objections| == |rulings|
    requires forall i :: 0 <= i < |rulings| ==> objections[i].basis.key == rulings[i].basis.key
    ensures ByBasis(objections, rulings, n) == seq(n, i => Some(i))
  {
    if n > 0 {
      AgreeingPrefix(objections, rulings, n - 1);
    }
  }

  lemma {:induction false} FullyClaimed(a: Alignment, rulings: seq<Ruling>, n: nat)
    requires n <= |a| && forall i :: 0 <= i < |a| ==> a[i].Some?
    ensures ByPosition(a, rulings, n) == a
  {
    if n > 0 {
      FullyClaimed(a, rulings, n - 1);
    }
  }

  // --- votes never exceed rulings cast ------------------------------------------------

  function VotesUpTo(a: Alignment, rulings: seq<Ruling>, n: nat): nat
    requires n <= |a|
  {
    if n == 0 then 0 else VotesUpTo(a, rulings, n - 1) + Votes(a, rulings, false, n - 1)
  }

  lemma {:induction false} VotesBounded(a: Alignment, rulings: seq<Ruling>, n: nat, used: set<nat>)
    requires n <= |a| && InRange(a, rulings) && NoneTwice(a)
    requires used == set i: nat | i < n && a[i].Some? :: a[i].value
    ensures VotesUpTo(a, rulings, n) == |used| <= |rulings|
  {
    if n > 0 {
      var before := set i: nat | i < n - 1 && a[i].Some? :: a[i].value;
      VotesBounded(a, rulings, n - 1, before);
      if a[n - 1].Some? {
        OneMoreValue(a, n, before, used);
      } else {
        assert used == before;
      }
    }
    BoundedSet(used, |rulings|);
  }

  lemma OneMoreValue(a: Alignment, n: nat, before: set<nat>, used: set<nat>)
    requires 1 <= n <= |a| && NoneTwice(a) && a[n - 1].Some?
    requires before == set i: nat | i < n - 1 && a[i].Some? :: a[i].value
    requires used == set i: nat | i < n && a[i].Some? :: a[i].value
    ensures used == before + {a[n - 1].value} && |used| == |before| + 1
  {
    assert a[n - 1].value !in before;
  }

  lemma BoundedSet(s: set<nat>, n: nat)
    requires forall x :: x in s ==> x < n
    ensures |s| <= n
  {
    if n > 0 {
      BoundedSet(s - {n - 1}, n - 1);
      SubsetSize(s, (s - {n - 1}) + {n - 1});
    } else {
      assert s == {};
    }
  }

  function TotalVotes(objections: seq<Objection>, judges: seq<seq<Ruling>>, n: nat): nat
    requires n <= |objections|
  {
    if n == 0 then 0
    else TotalVotes(objections, judges, n - 1) + PanelVotes(objections, judges, false, n - 1)
  }

  function RulingsCast(judges: seq<seq<Ruling>>): nat {
    if judges == [] then 0 else RulingsCast(judges[..|judges| - 1]) + |judges[|judges| - 1]|
  }

  lemma {:induction false} TotalVotesSplit(objections: seq<Objection>, judges: seq<seq<Ruling>>, n: nat)
    requires n <= |objections| && judges != []
    ensures var last := judges[|judges| - 1];
      TotalVotes(objections, judges, n)
      == TotalVotes(objections, judges[..|judges| - 1], n) + VotesUpTo(Align(objections, last), last, n)
  {
    if n > 0 {
      TotalVotesSplit(objections, judges, n - 1);
    }
  }

  /** Over all objections, the panel counts no more votes than it cast rulings; and on each
      objection no more surviving votes than votes, and no more votes than judges. */
  lemma {:induction false} VotesNeverExceedRulings(objections: seq<Objection>, judges: seq<seq<Ruling>>)
    ensures TotalVotes(objections, judges, |objections|) <= RulingsCast(judges)
    ensures forall r :: r in FoldPanel(objections, judges) ==> r.survive <= r.total <= |judges|
  {
    if judges == [] {
      NoJudgesNoVotes(objections, |objections|);
    } else {
      var last := judges[|judges| - 1];
      var a := Align(objections, last);
      VotesNeverExceedRulings(objections, judges[..|judges| - 1]);
      TotalVotesSplit(objections, judges, |objections|);
      NoRulingUsedTwice(objections, last);
      VotesBounded(a, last, |objections|, set i: nat | i < |objections| && a[i].Some? :: a[i].value);
      forall i: nat | i < |objections|
        ensures var r := ResultFor(objections, judges, i); r.survive <= r.total <= |judges|
      {
        var before := ResultFor(objections, judges[..|judges| - 1], i);
        assert before == FoldPanel(objections, judges[..|judges| - 1])[i];
      }
    }
  }

  lemma {:induction false} NoJudgesNoVotes(objections: seq<Objection>, n: nat)
    requires n <= |objections|
    ensures TotalVotes(objections, [], n) == 0
  {
    if n > 0 {
      NoJudgesNoVotes(objections, n - 1);
    }
  }
}
