/**
 The pass rule of scripts/cache_parity_eval.py: modal labels, the noise floor, agreement,
 directional drift and the gate that combines them. Rates are exact reals. A label list is
 what `parse_decision` can return, so a label is one of three or missing.
 */
module ParityGate {
  import opened Common
  import Binomial

  datatype Label = Buy | Hold | Sell

  /** The tie order of `_LABELS`. */
  const LABELS := [Buy, Hold, Sell]
  const ALPHA := 0.05

  type Runs = seq<Option<Label>>

  // ---------------------------------------------------------------------------------
  // Modal label and noise floor
  // ---------------------------------------------------------------------------------

  function Parsed(runs: Runs): seq<Label> {
    if runs == [] then []
    else (if runs[0].Some? then [runs[0].value] else []) + Parsed(runs[1..])
  }

  function Count(labels: seq<Label>, lab: Label): nat {
    if labels == [] then 0 else (if labels[0] == lab then 1 else 0) + Count(labels[1..], lab)
  }

  function Best(labels: seq<Label>): nat {
    Larger(Count(labels, Buy), Larger(Count(labels, Hold), Count(labels, Sell)))
  }

  function Modal(labels: seq<Label>): Label {
    if Count(labels, Buy) == Best(labels) then Buy
    else if Count(labels, Hold) == Best(labels) then Hold
    else Sell
  }

  lemma {:induction false} CountsAddUp(labels: seq<Label>)
    ensures Count(labels, Buy) + Count(labels, Hold) + Count(labels, Sell) == |labels|
  {
    if labels != [] {
      CountsAddUp(labels[1..]);
    }
  }

  lemma BestIsLarger(labels: seq<Label>)
    ensures forall lab :: Count(labels, lab) <= Best(labels)
    ensures Count(labels, Modal(labels)) == Best(labels)
    ensures exists i :: 0 <= i < |LABELS| && Count(labels, LABELS[i]) == Best(labels)
  {
    hide Count;
    forall lab
      ensures Count(labels, lab) <= Best(labels)
    {
      match lab case Buy => case Hold => case Sell =>
    }
    var i := match Modal(labels) case Buy => 0 case Hold => 1 case Sell => 2;
    assert LABELS[i] == Modal(labels);
  }

  /** `_modal`: the loop over the tie order finds the modal label, and its final fallback is
      never reached. */
  method FindModal(labels: seq<Label>) returns (modal: Label)
    requires labels != []
    ensures modal == Modal(labels)
    ensures forall lab :: Count(labels, lab) <= Count(labels, modal)
    ensures forall i, j :: 0 <= i < j < |LABELS| && LABELS[j] == modal ==>
              Count(labels, LABELS[i]) < Count(labels, modal)
  {
    hide Count;
    BestIsLarger(labels);
    var best := Best(labels);
    for i := 0 to |LABELS|
      invariant forall j :: 0 <= j < i ==> Count(labels, LABELS[j]) != best
    {
      if Count(labels, LABELS[i]) == best {
        assert i >= 1 ==> Count(labels, LABELS[0]) != best;
        assert i >= 2 ==> Count(labels, LABELS[1]) != best;
        return LABELS[i];
      }
    }
    // the source falls back to labels[0] here
    assert false;
    modal := Sell;
  }

  /** The fraction of runs that differ from their modal label. */
  function Disagreement(labels: seq<Label>): real
    requires labels != []
  {
    (|labels| - Count(labels, Modal(labels))) as real / |labels| as real
  }

  /** Pigeonhole over three labels. */
  lemma DisagreementBound(labels: seq<Label>)
    requires labels != []
    ensures 0.0 <= Disagreement(labels) <= 2.0 / 3.0
    ensures Disagreement(labels) == 0.0 <==> Count(labels, Modal(labels)) == |labels|
  {
    CountsAddUp(labels);
    var n, d := |labels| as real, (|labels| - Count(labels, Modal(labels))) as real;
    assert 3.0 * d <= 2.0 * n;
    DivideBound(d, n);
  }

  lemma Sign(a: real, n: real)
    requires n > 0.0
    ensures a * n >= 0.0 <==> a >= 0.0
    ensures a * n == 0.0 <==> a == 0.0
  {
  }

  lemma RatioCompare(x: real, n: real, t: real)
    requires n > 0.0
    ensures x / n >= t <==> x >= t * n
    ensures x / n == t <==> x == t * n
  {
    assert (x / n - t) * n == x - t * n;
    Sign(x / n - t, n);
  }

  lemma DivideBound(d: real, n: real)
    requires n > 0.0 && 0.0 <= d && 3.0 * d <= 2.0 * n
    ensures 0.0 <= d / n <= 2.0 / 3.0
    ensures d / n == 0.0 <==> d == 0.0
  {
    RatioCompare(d, n, 0.0);
    RatioCompare(d, n, 2.0 / 3.0);
  }

  function Fraction(runs: Runs): seq<real> {
    if Parsed(runs) == [] then [] else [Disagreement(Parsed(runs))]
  }

  function Fractions(fixtures: seq<Runs>): seq<real> {
    if fixtures == [] then []
    else Fraction(fixtures[0]) + Fractions(fixtures[1..])
  }

  function Sum(xs: seq<real>): real {
    if xs == [] then 0.0 else Sum(xs[..|xs| - 1]) + xs[|xs| - 1]
  }

  function NoiseFloor(fixtures: seq<Runs>): real {
    var fracs := Fractions(fixtures);
    if fracs == [] then 0.0 else Sum(fracs) / |fracs| as real
  }

  lemma {:induction false} FractionsAppend(fixtures: seq<Runs>, runs: Runs)
    ensures Fractions(fixtures + [runs]) == Fractions(fixtures) + Fraction(runs)
  {
    hide Fraction;
    if fixtures == [] {
      assert fixtures + [runs] == [runs] && [runs][1..] == [];
      assert Fractions([runs]) == Fraction(runs) + Fractions([]);
    } else {
      FractionsAppend(fixtures[1..], runs);
      assert (fixtures + [runs])[1..] == fixtures[1..] + [runs];
      assert Fractions(fixtures + [runs]) == Fraction(fixtures[0]) + Fractions(fixtures[1..] + [runs]);
    }
  }

  /** `noise_floor`. */
  method ComputeNoiseFloor(fixtures: seq<Runs>) returns (noise: real)
    ensures noise == NoiseFloor(fixtures)
  {
    var fracs: seq<real> := [];
    for i := 0 to |fixtures|
      invariant fracs == Fractions(fixtures[..i])
    {
      FractionsAppend(fixtures[..i], fixtures[i]);
      assert fixtures[..i + 1] == fixtures[..i] + [fixtures[i]];
      var labels := Parsed(fixtures[i]);
      if labels != [] {
        var modal := FindModal(labels);
        fracs := fracs + [(|labels| - Count(labels, modal)) as real / |labels| as real];
      }
    }
    assert fixtures[..|fixtures|] == fixtures;
    noise := if fracs == [] then 0.0 else Sum(fracs) / |fracs| as real;
  }

  lemma {:induction false} FractionsBound(fixtures: seq<Runs>)
    ensures forall f :: f in Fractions(fixtures) ==> 0.0 <= f <= 2.0 / 3.0
  {
    hide Disagreement;
    if fixtures != [] {
      FractionsBound(fixtures[1..]);
      if Parsed(fixtures[0]) != [] {
        DisagreementBound(Parsed(fixtures[0]));
      }
    }
  }

  predicate AllZero(xs: seq<real>) {
    forall x :: x in xs ==> x == 0.0
  }

  lemma {:induction false} SumBound(xs: seq<real>)
    requires forall x :: x in xs ==> 0.0 <= x <= 2.0 / 3.0
    ensures 0.0 <= Sum(xs) && 3.0 * Sum(xs) <= 2.0 * |xs| as real
    ensures Sum(xs) == 0.0 <==> AllZero(xs)
  {
    if xs != [] {
      var init, last := xs[..|xs| - 1], xs[|xs| - 1];
      assert xs == init + [last];
      assert forall x :: x in init ==> x in xs;
      assert last in xs;
      assert forall x :: x in xs ==> x in init || x == last;
      SumBound(init);
      if Sum(xs) == 0.0 {
        assert Sum(init) == 0.0 && last == 0.0;
      }
      if AllZero(xs) {
        assert Sum(init) == 0.0 && last == 0.0;
      }
    }
  }

  /** The noise floor never exceeds two thirds, whatever the labels; it is zero exactly when
      every fixture with a parsed label repeats one label. */
  lemma NoiseFloorBound(fixtures: seq<Runs>)
    ensures 0.0 <= NoiseFloor(fixtures) <= 2.0 / 3.0
    ensures NoiseFloor(fixtures) == 0.0 <==> AllZero(Fractions(fixtures))
  {
    var fracs := Fractions(fixtures);
    FractionsBound(fixtures);
    SumBound(fracs);
    if fracs != [] {
      DivideBound(Sum(fracs), |fracs| as real);
    }
  }

  // ---------------------------------------------------------------------------------
  // Agreement and drift
  // ---------------------------------------------------------------------------------

  /** The comparable fixtures: both sides have a label. `zip` stops at the shorter list. */
  function Pairs(old_: Runs, new_: Runs): seq<(Label, Label)> {
    if old_ == [] || new_ == [] then []
    else (if old_[0].Some? && new_[0].Some? then [(old_[0].value, new_[0].value)] else [])
         + Pairs(old_[1..], new_[1..])
  }

  function Matches(pairs: seq<(Label, Label)>): nat {
    if pairs == [] then 0 else (if pairs[0].0 == pairs[0].1 then 1 else 0) + Matches(pairs[1..])
  }

  /** `agreement_rate`. */
  function Agreement(old_: Runs, new_: Runs): real {
    var pairs := Pairs(old_, new_);
    if pairs == [] then 0.0 else Matches(pairs) as real / |pairs| as real
  }

  function Score(lab: Label): int {
    match lab case Buy => 1 case Hold => 0 case Sell => -1
  }

  function MoreBullish(pairs: seq<(Label, Label)>): nat {
    if pairs == [] then 0
    else (if Score(pairs[0].1) > Score(pairs[0].0) then 1 else 0) + MoreBullish(pairs[1..])
  }

  function MoreBearish(pairs: seq<(Label, Label)>): nat {
    if pairs == [] then 0
    else (if Score(pairs[0].1) < Score(pairs[0].0) then 1 else 0) + MoreBearish(pairs[1..])
  }

  function DriftP(old_: Runs, new_: Runs): real {
    var pairs := Pairs(old_, new_);
    Binomial.PValue(MoreBullish(pairs), MoreBearish(pairs))
  }

  /** One turn of the loop over the zipped lists. */
  lemma CountFirst(old_: Runs, new_: Runs)
    requires old_ != [] && new_ != []
    ensures var (o, n) := (old_[0], new_[0]);
            var (pairs, rest) := (Pairs(old_, new_), Pairs(old_[1..], new_[1..]));
            && MoreBullish(pairs)
               == MoreBullish(rest) + (if o.Some? && n.Some? && Score(n.value) > Score(o.value) then 1 else 0)
            && MoreBearish(pairs)
               == MoreBearish(rest) + (if o.Some? && n.Some? && Score(n.value) < Score(o.value) then 1 else 0)
  {
    hide Score;
    var rest := Pairs(old_[1..], new_[1..]);
    if old_[0].Some? && new_[0].Some? {
      assert Pairs(old_, new_)[1..] == rest;
    } else {
      assert Pairs(old_, new_) == rest;
    }
  }

  lemma NoPairs(old_: Runs, new_: Runs)
    requires old_ == [] || new_ == []
    ensures MoreBullish(Pairs(old_, new_)) == 0 == MoreBearish(Pairs(old_, new_))
  {
  }

  /** `mcnemar_exact_p`: one pass over the zipped lists. */
  method McNemarExactP(old_: Runs, new_: Runs) returns (p: real)
    ensures p == DriftP(old_, new_)
  {
    hide Binomial.TwoSided, Pairs, MoreBullish, MoreBearish, Score;
    var b, c, i := 0, 0, 0;
    while i < |old_| && i < |new_|
      invariant 0 <= i <= |old_| && i <= |new_|
      invariant b + MoreBullish(Pairs(old_[i..], new_[i..])) == MoreBullish(Pairs(old_, new_))
      invariant c + MoreBearish(Pairs(old_[i..], new_[i..])) == MoreBearish(Pairs(old_, new_))
    {
      CountFirst(old_[i..], new_[i..]);
      assert old_[i..][1..] == old_[i + 1..] && new_[i..][1..] == new_[i + 1..];
      if old_[i].Some? && new_[i].Some? {
        if Score(new_[i].value) > Score(old_[i].value) {
          b := b + 1;
        } else if Score(new_[i].value) < Score(old_[i].value) {
          c := c + 1;
        }
      }
      i := i + 1;
    }
    NoPairs(old_[i..], new_[i..]);
    var discordant := b + c;
    p := if discordant == 0 then 1.0 else Binomial.TwoSided(if b <= c then b else c, discordant);
  }

  /** Every comparable fixture either matches or moves one way. */
  lemma {:induction false} EveryPairMatchesOrMoves(pairs: seq<(Label, Label)>)
    ensures Matches(pairs) + MoreBullish(pairs) + MoreBearish(pairs) == |pairs|
  {
    if pairs != [] {
      EveryPairMatchesOrMoves(pairs[1..]);
    }
  }

  // ---------------------------------------------------------------------------------
  // The gate
  // ---------------------------------------------------------------------------------

  function ModalOf(runs: Runs): Option<Label> {
    if Parsed(runs) != [] then Some(Modal(Parsed(runs))) else None
  }

  function Modals(fixtures: seq<Runs>): Runs {
    if fixtures == [] then [] else [ModalOf(fixtures[0])] + Modals(fixtures[1..])
  }

  /** `[o + n for o, n in zip(old, new)]`. */
  function Pool(oldRuns: seq<Runs>, newRuns: seq<Runs>): seq<Runs> {
    if oldRuns == [] || newRuns == [] then []
    else [oldRuns[0] + newRuns[0]] + Pool(oldRuns[1..], newRuns[1..])
  }

  function Noise(oldRuns: seq<Runs>, newRuns: Option<seq<Runs>>): real {
    NoiseFloor(if newRuns.Some? then Pool(oldRuns, newRuns.value) else oldRuns)
  }

  lemma NoiseBound(oldRuns: seq<Runs>, newRuns: Option<seq<Runs>>)
    ensures 0.0 <= Noise(oldRuns, newRuns) <= 2.0 / 3.0
  {
    hide NoiseFloor;
    NoiseFloorBound(if newRuns.Some? then Pool(oldRuns, newRuns.value) else oldRuns);
  }

  /** `evaluate_pass(...).passed`. */
  predicate Passed(oldRuns: seq<Runs>, newLabels: Runs, newRuns: Option<seq<Runs>>) {
    && Agreement(Modals(oldRuns), newLabels) >= 1.0 - Noise(oldRuns, newRuns)
    && DriftP(Modals(oldRuns), newLabels) > ALPHA
  }

  lemma AgreementAtLeast(old_: Runs, new_: Runs, t: real)
    requires Pairs(old_, new_) != []
    ensures Agreement(old_, new_) >= t <==> Matches(Pairs(old_, new_)) as real >= t * |Pairs(old_, new_)| as real
  {
    hide Pairs, Matches;
    RatioCompare(Matches(Pairs(old_, new_)) as real, |Pairs(old_, new_)| as real, t);
  }

  /** `m` is at least this share of `n`. */
  predicate Enough(share: real, m: nat, n: nat) {
    m as real >= share * n as real
  }

  /** The gate in counts: enough matches for the noise, and a split of the moves that is not
      significant. With nothing comparable it fails, whatever the noise. */
  lemma PassedByCounts(oldRuns: seq<Runs>, newLabels: Runs, newRuns: Option<seq<Runs>>)
    ensures var pairs := Pairs(Modals(oldRuns), newLabels);
            Passed(oldRuns, newLabels, newRuns) <==>
              && pairs != []
              && Enough(1.0 - Noise(oldRuns, newRuns), Matches(pairs), |pairs|)
              && Binomial.PValue(MoreBullish(pairs), MoreBearish(pairs)) > 0.05
  {
    hide Binomial.PValue, Noise, Matches, Pairs, MoreBullish, MoreBearish, Modals;
    var pairs := Pairs(Modals(oldRuns), newLabels);
    NoiseBound(oldRuns, newRuns);
    if pairs != [] {
      hide Agreement;
      AgreementAtLeast(Modals(oldRuns), newLabels, 1.0 - Noise(oldRuns, newRuns));
    }
  }

  /** With zero noise the gate passes exactly when something is comparable and all of it agrees. */
  lemma ZeroNoiseGate(oldRuns: seq<Runs>, newLabels: Runs, newRuns: Option<seq<Runs>>)
    requires Noise(oldRuns, newRuns) == 0.0
    ensures var pairs := Pairs(Modals(oldRuns), newLabels);
            Passed(oldRuns, newLabels, newRuns) <==> pairs != [] && Matches(pairs) == |pairs|
  {
    hide Binomial.PValue, Enough, Noise, Matches, Pairs, MoreBullish, MoreBearish, Modals, Passed;
    var pairs := Pairs(Modals(oldRuns), newLabels);
    PassedByCounts(oldRuns, newLabels, newRuns);
    EveryPairMatchesOrMoves(pairs);
    EnoughOfAll(Matches(pairs), |pairs|);
    NoMovesNoDrift();
  }

  lemma EnoughOfAll(m: nat, n: nat)
    ensures Enough(1.0, m, n) <==> m >= n
  {
  }

  lemma NoMovesNoDrift()
    ensures Binomial.PValue(0, 0) > ALPHA
  {
  }

  /** A passing run agrees on at least a third of what is comparable. */
  lemma PassNeedsAThird(oldRuns: seq<Runs>, newLabels: Runs, newRuns: Option<seq<Runs>>)
    requires Passed(oldRuns, newLabels, newRuns)
    ensures var pairs := Pairs(Modals(oldRuns), newLabels);
            pairs != [] && 3 * Matches(pairs) >= |pairs|
  {
    hide Binomial.PValue, Noise, Matches, Pairs, MoreBullish, MoreBearish, Modals, Passed, Enough;
    PassedByCounts(oldRuns, newLabels, newRuns);
    NoiseBound(oldRuns, newRuns);
    var pairs := Pairs(Modals(oldRuns), newLabels);
    ThirdOf(Noise(oldRuns, newRuns), Matches(pairs), |pairs|);
  }

  lemma ThirdOf(noise: real, m: nat, n: nat)
    requires noise <= 2.0 / 3.0 && Enough(1.0 - noise, m, n)
    ensures 3 * m >= n
  {
    assert (2.0 / 3.0 - noise) * n as real >= 0.0;
  }

  lemma {:induction false} SameModalsMatch(modals: Runs)
    ensures Matches(Pairs(modals, modals)) == |Pairs(modals, modals)|
    ensures Pairs(modals, modals) == [] <==> forall m :: m in modals ==> m == None
  {
    if modals != [] {
      SameModalsMatch(modals[1..]);
      var rest := Pairs(modals[1..], modals[1..]);
      assert modals == [modals[0]] + modals[1..];
      if modals[0].Some? {
        assert Pairs(modals, modals)[1..] == rest;
        assert modals[0] in modals && modals[0] != None;
      } else {
        assert Pairs(modals, modals) == rest;
        assert forall m :: m in modals <==> m == None || m in modals[1..];
      }
    }
  }

  lemma {:induction false} ModalsPresent(fixtures: seq<Runs>)
    ensures forall runs :: runs in fixtures ==> ModalOf(runs) in Modals(fixtures)
    ensures forall m :: m in Modals(fixtures) ==> exists runs :: runs in fixtures && m == ModalOf(runs)
  {
    hide ModalOf;
    if fixtures != [] {
      ModalsPresent(fixtures[1..]);
      assert fixtures == [fixtures[0]] + fixtures[1..];
    }
  }

  /** When the new arm has the old arm's modal labels, the gate passes exactly when some run of
      the old arm parsed, for any noise; in particular for two identical arms. */
  lemma SameModalsGate(oldRuns: seq<Runs>, newRuns: Option<seq<Runs>>)
    ensures Passed(oldRuns, Modals(oldRuns), newRuns)
            <==> exists runs :: runs in oldRuns && Parsed(runs) != []
  {
    hide Binomial.TwoSided, Noise, Matches, Pairs, MoreBullish, MoreBearish, Modals, Modal, Passed, Enough;
    var modals := Modals(oldRuns);
    PassedByCounts(oldRuns, modals, newRuns);
    SameModalsMatch(modals);
    ModalsPresent(oldRuns);
    EveryPairMatchesOrMoves(Pairs(modals, modals));
    NoiseBound(oldRuns, newRuns);
    ShareOf(Noise(oldRuns, newRuns), |Pairs(modals, modals)|);
  }

  lemma ShareOf(noise: real, n: nat)
    requires 0.0 <= noise
    ensures Enough(1.0 - noise, n, n)
  {
    assert noise * n as real >= 0.0;
  }

  /** The drift test alone can fail a run only from the sixth move on, and with all moves one
      way it does from exactly the sixth. */
  lemma DriftThreshold(old_: Runs, new_: Runs)
    ensures var pairs := Pairs(old_, new_);
            && (DriftP(old_, new_) <= ALPHA ==> MoreBullish(pairs) + MoreBearish(pairs) >= 6)
            && (MoreBullish(pairs) == 0 || MoreBearish(pairs) == 0 ==>
                  (DriftP(old_, new_) <= ALPHA <==> MoreBullish(pairs) + MoreBearish(pairs) >= 6))
  {
    hide Binomial.PValue;
    var pairs := Pairs(old_, new_);
    var b, c := MoreBullish(pairs), MoreBearish(pairs);
    Binomial.PValueRange(b, c);
    if DriftP(old_, new_) <= ALPHA {
      Binomial.SignificanceNeedsSix(b, c);
    }
    Binomial.OneWaySignificance(b + c);
  }

  // ---------------------------------------------------------------------------------
  // The counts by fixture
  // ---------------------------------------------------------------------------------

  /** The fixtures whose two labels are in a set of pairs. */
  function FixturesIn(old_: Runs, new_: Runs, pairs: set<(Label, Label)>): set<nat> {
    set i: nat | i < |old_| && i < |new_| && old_[i].Some? && new_[i].Some?
                 && (old_[i].value, new_[i].value) in pairs
  }

  function CountIn(pairs: seq<(Label, Label)>, wanted: set<(Label, Label)>): nat {
    if pairs == [] then 0 else (if pairs[0] in wanted then 1 else 0) + CountIn(pairs[1..], wanted)
  }

  function Shifted(fixtures: set<nat>): set<nat> {
    set i | i in fixtures :: i + 1
  }

  lemma {:induction false} ShiftedSize(fixtures: set<nat>)
    ensures |Shifted(fixtures)| == |fixtures|
  {
    if fixtures != {} {
      var i :| i in fixtures;
      ShiftedSize(fixtures - {i});
      forall k
        ensures k in Shifted(fixtures) <==> k in Shifted(fixtures - {i}) || k == i + 1
      {
        assert k in Shifted(fixtures) <==> k >= 1 && k - 1 in fixtures;
        assert k in Shifted(fixtures - {i}) <==> k >= 1 && k - 1 in fixtures - {i};
      }
      assert Shifted(fixtures) == Shifted(fixtures - {i}) + {i + 1};
    }
  }

  lemma {:induction false} CountsByFixture(old_: Runs, new_: Runs, wanted: set<(Label, Label)>)
    ensures CountIn(Pairs(old_, new_), wanted) == |FixturesIn(old_, new_, wanted)|
  {
    if old_ == [] || new_ == [] {
      assert FixturesIn(old_, new_, wanted) == {};
    } else {
      CountsByFixture(old_[1..], new_[1..], wanted);
      FirstFixture(old_, new_, wanted);
      ShiftedSize(FixturesIn(old_[1..], new_[1..], wanted));
      var rest := Pairs(old_[1..], new_[1..]);
      if old_[0].Some? && new_[0].Some? {
        assert Pairs(old_, new_)[1..] == rest;
      } else {
        assert Pairs(old_, new_) == rest;
      }
    }
  }

  lemma FirstFixture(old_: Runs, new_: Runs, wanted: set<(Label, Label)>)
    requires old_ != [] && new_ != []
    ensures var rest := Shifted(FixturesIn(old_[1..], new_[1..], wanted));
            && FixturesIn(old_, new_, wanted)
               == rest + (if old_[0].Some? && new_[0].Some? && (old_[0].value, new_[0].value) in wanted
                          then {0} else {})
            && 0 !in rest
  {
    var rest := FixturesIn(old_[1..], new_[1..], wanted);
    forall i: nat | 0 < i
      ensures i in FixturesIn(old_, new_, wanted) <==> i in Shifted(rest)
    {
      assert i in Shifted(rest) <==> i - 1 in rest;
    }
  }

  lemma {:induction false} CountsAreOfPairs(pairs: seq<(Label, Label)>)
    ensures |pairs| == CountIn(pairs, set o, n | o in LABELS && n in LABELS :: (o, n))
    ensures Matches(pairs) == CountIn(pairs, {(Buy, Buy), (Hold, Hold), (Sell, Sell)})
    ensures MoreBullish(pairs) == CountIn(pairs, {(Sell, Hold), (Sell, Buy), (Hold, Buy)})
    ensures MoreBearish(pairs) == CountIn(pairs, {(Buy, Hold), (Buy, Sell), (Hold, Sell)})
  {
    if pairs != [] {
      CountsAreOfPairs(pairs[1..]);
      EveryLabel(pairs[0].0);
      EveryLabel(pairs[0].1);
    }
  }

  lemma EveryLabel(lab: Label)
    ensures lab in LABELS
  {
    var i := match lab case Buy => 0 case Hold => 1 case Sell => 2;
    assert LABELS[i] == lab;
  }

  /** The counts of the gate, fixture by fixture: comparable are those with a label on both sides; of
      these, matches have the same label, bullish moves go from sell to hold or buy, or from hold to
      buy, and bearish moves the other way. */
  lemma GateCounts(old_: Runs, new_: Runs)
    ensures var pairs := Pairs(old_, new_);
            && |pairs| == |set i: nat | i < |old_| && i < |new_| && old_[i].Some? && new_[i].Some?|
            && Matches(pairs) == |set i: nat | i < |old_| && i < |new_| && old_[i].Some? && new_[i] == old_[i]|
            && MoreBullish(pairs) == |FixturesIn(old_, new_, {(Sell, Hold), (Sell, Buy), (Hold, Buy)})|
            && MoreBearish(pairs) == |FixturesIn(old_, new_, {(Buy, Hold), (Buy, Sell), (Hold, Sell)})|
  {
    var (pairs, all) := (Pairs(old_, new_), set o, n | o in LABELS && n in LABELS :: (o, n));
    CountsAreOfPairs(pairs);
    CountsByFixture(old_, new_, all);
    CountsByFixture(old_, new_, {(Buy, Buy), (Hold, Hold), (Sell, Sell)});
    CountsByFixture(old_, new_, {(Sell, Hold), (Sell, Buy), (Hold, Buy)});
    CountsByFixture(old_, new_, {(Buy, Hold), (Buy, Sell), (Hold, Sell)});
    hide Pairs, Matches, MoreBullish, MoreBearish, CountIn;
    forall lab { EveryLabel(lab); }
    forall o: Label, n: Label
      ensures (o, n) in {(Buy, Buy), (Hold, Hold), (Sell, Sell)} <==> o == n
    {
      EveryLabel(o);
    }
    assert FixturesIn(old_, new_, all)
        == set i: nat | i < |old_| && i < |new_| && old_[i].Some? && new_[i].Some?;
    assert FixturesIn(old_, new_, {(Buy, Buy), (Hold, Hold), (Sell, Sell)})
        == set i: nat | i < |old_| && i < |new_| && old_[i].Some? && new_[i] == old_[i];
  }

  /** The old arm's label of a fixture: none if no run parsed, else the most frequent one, and of equals
      the first of buy, hold and sell. */
  lemma {:induction false} ModalsByFixture(fixtures: seq<Runs>, i: nat)
    requires i < |fixtures|
    ensures |Modals(fixtures)| == |fixtures|
    ensures Modals(fixtures)[i].None? <==> forall k :: 0 <= k < |fixtures[i]| ==> fixtures[i][k].None?
    ensures Modals(fixtures)[i].Some? ==>
              var (lab, labels) := (Modals(fixtures)[i].value, multiset(fixtures[i]));
              && labels[Some(Buy)] <= labels[Some(lab)] && labels[Some(Hold)] <= labels[Some(lab)]
              && labels[Some(Sell)] <= labels[Some(lab)]
              && (lab != Buy ==> labels[Some(Buy)] < labels[Some(lab)])
              && (lab == Sell ==> labels[Some(Hold)] < labels[Some(lab)])
  {
    if i > 0 {
      ModalsByFixture(fixtures[1..], i - 1);
    } else {
      LabelsParsed(fixtures[0]);
      BestIsLarger(Parsed(fixtures[0]));
      hide Count, Parsed;
      ModalsLength(fixtures);
    }
  }

  lemma {:induction false} ModalsLength(fixtures: seq<Runs>)
    ensures |Modals(fixtures)| == |fixtures|
  {
    if fixtures != [] {
      ModalsLength(fixtures[1..]);
    }
  }

  lemma {:induction false} LabelParsed(runs: Runs, lab: Label)
    ensures Count(Parsed(runs), lab) == multiset(runs)[Some(lab)]
  {
    if runs != [] {
      LabelParsed(runs[1..], lab);
      CountOfFirst(runs, lab);
      hide Parsed, Count;
      assert runs == [runs[0]] + runs[1..];
      assert multiset(runs) == multiset{runs[0]} + multiset(runs[1..]);
    }
  }

  lemma CountOfFirst(runs: Runs, lab: Label)
    requires runs != []
    ensures Count(Parsed(runs), lab) == Count(Parsed(runs[1..]), lab) + if runs[0] == Some(lab) then 1 else 0
  {
    var rest := Parsed(runs[1..]);
    if runs[0].Some? {
      assert Parsed(runs) == [runs[0].value] + rest;
      assert Parsed(runs)[1..] == rest;
    } else {
      assert Parsed(runs) == rest;
    }
  }

  lemma {:induction false} NothingParsed(runs: Runs)
    ensures Parsed(runs) == [] <==> forall k :: 0 <= k < |runs| ==> runs[k].None?
  {
    if runs != [] {
      NothingParsed(runs[1..]);
      assert forall k :: 1 <= k < |runs| ==> runs[k] == runs[1..][k - 1];
    }
  }

  lemma LabelsParsed(runs: Runs)
    ensures Parsed(runs) == [] <==> forall k :: 0 <= k < |runs| ==> runs[k].None?
    ensures Count(Parsed(runs), Buy) == multiset(runs)[Some(Buy)]
    ensures Count(Parsed(runs), Hold) == multiset(runs)[Some(Hold)]
    ensures Count(Parsed(runs), Sell) == multiset(runs)[Some(Sell)]
    ensures |Parsed(runs)| == multiset(runs)[Some(Buy)] + multiset(runs)[Some(Hold)] + multiset(runs)[Some(Sell)]
  {
    NothingParsed(runs);
    LabelParsed(runs, Buy);
    LabelParsed(runs, Hold);
    LabelParsed(runs, Sell);
    CountsAddUp(Parsed(runs));
    hide Count, Parsed;
  }

  // ---------------------------------------------------------------------------------
  // The noise floor as a mean, over both arms
  // ---------------------------------------------------------------------------------

  /** How many fixtures have a label. */
  function Labelled(fixtures: seq<Runs>): nat {
    |Fractions(fixtures)|
  }

  lemma {:induction false} SumConcat(xs: seq<real>, ys: seq<real>)
    ensures Sum(xs + ys) == Sum(xs) + Sum(ys)
  {
    if ys == [] {
      assert xs + ys == xs;
    } else {
      SumConcat(xs, ys[..|ys| - 1]);
      assert (xs + ys)[..|xs + ys| - 1] == xs + ys[..|ys| - 1];
    }
  }

  lemma {:induction false} FractionsConcat(a: seq<Runs>, b: seq<Runs>)
    ensures Fractions(a + b) == Fractions(a) + Fractions(b)
  {
    hide Fraction;
    if b == [] {
      assert a + b == a && Fractions(b) == [];
    } else {
      var n := |b| - 1;
      FractionsConcat(a, b[..n]);
      FractionsAppend(a + b[..n], b[n]);
      FractionsAppend(b[..n], b[n]);
      hide Fractions;
      assert a + b[..n] + [b[n]] == a + b && b[..n] + [b[n]] == b;
    }
  }

  lemma NoiseTimesLabelled(fixtures: seq<Runs>)
    ensures NoiseFloor(fixtures) * Labelled(fixtures) as real == Sum(Fractions(fixtures))
  {
    hide Fractions;
    var fracs := Fractions(fixtures);
    if fracs != [] {
      RatioCompare(Sum(fracs), |fracs| as real, NoiseFloor(fixtures));
    }
  }

  /** The noise floor is the mean over the fixtures that have a label: it weighs two collections by how
      many of those each has. */
  lemma NoiseIsMean(a: seq<Runs>, b: seq<Runs>)
    ensures Labelled(a + b) == Labelled(a) + Labelled(b)
    ensures NoiseFloor(a + b) * Labelled(a + b) as real
            == NoiseFloor(a) * Labelled(a) as real + NoiseFloor(b) * Labelled(b) as real
  {
    FractionsConcat(a, b);
    SumConcat(Fractions(a), Fractions(b));
    NoiseTimesLabelled(a);
    NoiseTimesLabelled(b);
    NoiseTimesLabelled(a + b);
    hide NoiseFloor, Fractions, Sum;
  }

  /** Of one fixture it is the share of its labels that are not the most frequent one; a fixture without
      a label does not count. */
  lemma NoiseOfOne(runs: Runs)
    ensures var labels := multiset(runs);
            var (buys, holds, sells) := (labels[Some(Buy)], labels[Some(Hold)], labels[Some(Sell)]);
            if buys + holds + sells == 0 then Labelled([runs]) == 0
            else && Labelled([runs]) == 1
                 && NoiseFloor([runs]) * (buys + holds + sells) as real
                    == (buys + holds + sells - Larger(buys, Larger(holds, sells))) as real
  {
    LabelsParsed(runs);
    FractionOfOne(runs);
    hide Parsed, Count, Fractions;
    if Parsed(runs) != [] {
      ShareOfOne(runs);
      BestIsLarger(Parsed(runs));
    }
  }

  lemma ShareOfOne(runs: Runs)
    requires Parsed(runs) != [] && Fractions([runs]) == [Disagreement(Parsed(runs))]
    ensures var labels := Parsed(runs);
            NoiseFloor([runs]) * |labels| as real == (|labels| - Count(labels, Modal(labels))) as real
  {
    hide Parsed, Count, Fractions, Modal;
    var labels := Parsed(runs);
    OneFraction(Disagreement(labels));
    RatioCompare((|labels| - Count(labels, Modal(labels))) as real, |labels| as real, Disagreement(labels));
    assert NoiseFloor([runs]) == Disagreement(labels) / 1.0;
  }

  lemma FractionOfOne(runs: Runs)
    ensures Fractions([runs]) == if Parsed(runs) == [] then [] else [Disagreement(Parsed(runs))]
  {
    hide Parsed, Disagreement;
    assert [runs][1..] == [];
  }

  lemma OneFraction(x: real)
    ensures Sum([x]) == x
  {
    assert [x][..0] == [];
  }

  lemma SameCountsSameFraction(a: Runs, b: Runs)
    requires multiset(a) == multiset(b)
    ensures Fraction(a) == Fraction(b)
  {
    LabelsParsed(a);
    LabelsParsed(b);
    BestIsLarger(Parsed(a));
    BestIsLarger(Parsed(b));
    hide Parsed, Count;
  }

  /** Pooling the arms makes the noise symmetric in them, as the documentation promises, fixture by
      fixture; it is the noise of the runs of both. */
  lemma {:induction false} NoiseIsSymmetric(oldRuns: seq<Runs>, newRuns: seq<Runs>)
    ensures Fractions(Pool(oldRuns, newRuns)) == Fractions(Pool(newRuns, oldRuns))
    ensures Noise(oldRuns, Some(newRuns)) == Noise(newRuns, Some(oldRuns))
  {
    hide Fraction;
    if oldRuns != [] && newRuns != [] {
      NoiseIsSymmetric(oldRuns[1..], newRuns[1..]);
      SameCountsSameFraction(oldRuns[0] + newRuns[0], newRuns[0] + oldRuns[0]);
      assert Pool(oldRuns, newRuns)[1..] == Pool(oldRuns[1..], newRuns[1..]);
      assert Pool(newRuns, oldRuns)[1..] == Pool(newRuns[1..], oldRuns[1..]);
    }
  }

  lemma {:induction false} PoolByFixture(oldRuns: seq<Runs>, newRuns: seq<Runs>)
    ensures |Pool(oldRuns, newRuns)| == Smaller(|oldRuns|, |newRuns|)
    ensures forall i :: 0 <= i < |Pool(oldRuns, newRuns)| ==>
              multiset(Pool(oldRuns, newRuns)[i]) == multiset(oldRuns[i]) + multiset(newRuns[i])
  {
    if oldRuns != [] && newRuns != [] {
      PoolByFixture(oldRuns[1..], newRuns[1..]);
    }
  }

  // ---------------------------------------------------------------------------------
  // The documented rate
  // ---------------------------------------------------------------------------------

  lemma {:induction false} PairsConcat(old1: Runs, old2: Runs, new1: Runs, new2: Runs)
    requires |old1| == |new1|
    ensures Pairs(old1 + old2, new1 + new2) == Pairs(old1, new1) + Pairs(old2, new2)
  {
    if old1 == [] {
      assert old1 + old2 == old2 && new1 + new2 == new2;
    } else {
      PairsConcat(old1[1..], old2, new1[1..], new2);
      assert (old1 + old2)[1..] == old1[1..] + old2;
      assert (new1 + new2)[1..] == new1[1..] + new2;
    }
  }

  /** A reply without a label, wherever it stands, changes neither agreement nor drift. */
  lemma UnparsedReplyIsDropped(old1: Runs, old2: Runs, new1: Runs, new2: Runs, o: Option<Label>)
    requires |old1| == |new1|
    ensures Agreement(old1 + [o] + old2, new1 + [None] + new2) == Agreement(old1 + old2, new1 + new2)
    ensures DriftP(old1 + [o] + old2, new1 + [None] + new2) == DriftP(old1 + old2, new1 + new2)
  {
    hide Pairs;
    PairsConcat(old1 + [o], old2, new1 + [None], new2);
    PairsConcat(old1, [o], new1, [None]);
    PairsConcat(old1, old2, new1, new2);
    MissingPair(o);
    assert Pairs(old1, new1) + [] + Pairs(old2, new2) == Pairs(old1, new1) + Pairs(old2, new2);
    assert Pairs(old1 + [o] + old2, new1 + [None] + new2) == Pairs(old1 + old2, new1 + new2);
  }

  lemma MissingPair(o: Option<Label>)
    ensures Pairs([o], [None]) == []
  {
    assert [o][1..] == [] && Pairs([o], [None]) == [] + Pairs([o][1..], [None][1..]);
  }

  /** The compared fixtures for which the old arm has a label. */
  function OldParsed(old_: Runs, new_: Runs): nat {
    if old_ == [] || new_ == [] then 0 else (if old_[0].Some? then 1 else 0) + OldParsed(old_[1..], new_[1..])
  }

  /** What the documentation of `parse_decision` describes: a missing reply is a non-agreement. */
  function DocumentedAgreement(old_: Runs, new_: Runs): real {
    if OldParsed(old_, new_) == 0 then 0.0
    else Matches(Pairs(old_, new_)) as real / OldParsed(old_, new_) as real
  }

  /** Every fixture with an old label has a new one. */
  predicate AllReplied(old_: Runs, new_: Runs) {
    forall i :: 0 <= i < |old_| && i < |new_| && old_[i].Some? ==> new_[i].Some?
  }

  lemma {:induction false} PairsWithinParsed(old_: Runs, new_: Runs)
    ensures |Pairs(old_, new_)| <= OldParsed(old_, new_)
    ensures |Pairs(old_, new_)| == OldParsed(old_, new_) <==> AllReplied(old_, new_)
  {
    if old_ != [] && new_ != [] {
      PairsWithinParsed(old_[1..], new_[1..]);
      AllRepliedSplits(old_, new_);
    }
  }

  lemma AllRepliedSplits(old_: Runs, new_: Runs)
    requires old_ != [] && new_ != []
    ensures AllReplied(old_, new_) <==> (old_[0].Some? ==> new_[0].Some?) && AllReplied(old_[1..], new_[1..])
  {
    if AllReplied(old_, new_) {
      forall i | 0 <= i < |old_[1..]| && i < |new_[1..]| && old_[1..][i].Some?
        ensures new_[1..][i].Some?
      {
        assert old_[i + 1].Some?;
      }
    }
    if (old_[0].Some? ==> new_[0].Some?) && AllReplied(old_[1..], new_[1..]) {
      forall i | 0 <= i < |old_| && i < |new_| && old_[i].Some?
        ensures new_[i].Some?
      {
        if i > 0 {
          assert old_[1..][i - 1].Some?;
        }
      }
    }
  }

  /** The code's rate is never below the documented one, and equals it exactly when every fixture
      with an old label has a new one, or nothing matches. */
  lemma AgreementIsDocumentedExactly(old_: Runs, new_: Runs)
    ensures Agreement(old_, new_) >= DocumentedAgreement(old_, new_)
    ensures Agreement(old_, new_) == DocumentedAgreement(old_, new_)
            <==> AllReplied(old_, new_) || Matches(Pairs(old_, new_)) == 0
  {
    hide Pairs, Matches, AllReplied, OldParsed;
    var pairs := Pairs(old_, new_);
    PairsWithinParsed(old_, new_);
    EveryPairMatchesOrMoves(pairs);
    if pairs != [] {
      CompareShares(Matches(pairs) as real, |pairs| as real, OldParsed(old_, new_) as real);
    } else if OldParsed(old_, new_) > 0 {
      RatioCompare(0.0, OldParsed(old_, new_) as real, 0.0);
    }
  }

  lemma CompareShares(m: real, p: real, q: real)
    requires 0.0 <= m && 0.0 < p <= q
    ensures m / p >= m / q
    ensures m / p == m / q <==> p == q || m == 0.0
  {
    var x := m / q;
    assert x * q == m;
    RatioCompare(m, q, 0.0);
    if p < q {
      Sign(x, q - p);
    }
    assert x * (q - p) == m - x * p;
    RatioCompare(m, p, x);
  }

  /** The gate over the documented rate. */
  predicate DocumentedPassed(oldRuns: seq<Runs>, newLabels: Runs, newRuns: Option<seq<Runs>>) {
    && DocumentedAgreement(Modals(oldRuns), newLabels) >= 1.0 - Noise(oldRuns, newRuns)
    && DriftP(Modals(oldRuns), newLabels) > ALPHA
  }

  lemma EnoughForFewer(share: real, m: nat, p: nat, q: nat)
    requires share > 0.0 && p <= q && Enough(share, m, q)
    ensures Enough(share, m, p) && (q > 0 ==> m > 0)
  {
    assert share * (q - p) as real >= 0.0;
    if q > 0 {
      assert share * q as real > 0.0;
    }
  }

  lemma DocumentedByCounts(oldRuns: seq<Runs>, newLabels: Runs, newRuns: Option<seq<Runs>>)
    ensures var (old_, share) := (Modals(oldRuns), 1.0 - Noise(oldRuns, newRuns));
            var pairs := Pairs(old_, newLabels);
            DocumentedPassed(oldRuns, newLabels, newRuns) <==>
              && OldParsed(old_, newLabels) > 0 && Enough(share, Matches(pairs), OldParsed(old_, newLabels))
              && Binomial.PValue(MoreBullish(pairs), MoreBearish(pairs)) > ALPHA
  {
    hide Binomial.PValue, Noise, Matches, Pairs, MoreBullish, MoreBearish, Modals, OldParsed;
    var old_, share := Modals(oldRuns), 1.0 - Noise(oldRuns, newRuns);
    NoiseBound(oldRuns, newRuns);
    if OldParsed(old_, newLabels) > 0 {
      RatioCompare(Matches(Pairs(old_, newLabels)) as real, OldParsed(old_, newLabels) as real, share);
    }
  }

  /** The gate is never stricter than documented. It passes where the documented gate fails exactly
      when there is no significant drift and the matches suffice for the comparable fixtures but
      not for all that the old arm labelled; so only if some reply is missing. */
  lemma GateDiffersExactly(oldRuns: seq<Runs>, newLabels: Runs, newRuns: Option<seq<Runs>>)
    ensures DocumentedPassed(oldRuns, newLabels, newRuns) ==> Passed(oldRuns, newLabels, newRuns)
    ensures var (old_, share) := (Modals(oldRuns), 1.0 - Noise(oldRuns, newRuns));
            var pairs := Pairs(old_, newLabels);
            Passed(oldRuns, newLabels, newRuns) != DocumentedPassed(oldRuns, newLabels, newRuns) <==>
              && pairs != [] && Binomial.PValue(MoreBullish(pairs), MoreBearish(pairs)) > ALPHA
              && Enough(share, Matches(pairs), |pairs|)
              && !Enough(share, Matches(pairs), OldParsed(old_, newLabels))
    ensures AllReplied(Modals(oldRuns), newLabels) ==>
              Passed(oldRuns, newLabels, newRuns) == DocumentedPassed(oldRuns, newLabels, newRuns)
  {
    hide Binomial.PValue, Noise, Matches, Pairs, MoreBullish, MoreBearish, Modals, Passed, DocumentedPassed;
    hide OldParsed, AllReplied, Enough;
    var old_, share := Modals(oldRuns), 1.0 - Noise(oldRuns, newRuns);
    var pairs := Pairs(old_, newLabels);
    var parsed := OldParsed(old_, newLabels);
    PassedByCounts(oldRuns, newLabels, newRuns);
    NoiseBound(oldRuns, newRuns);
    DocumentedByCounts(oldRuns, newLabels, newRuns);
    PairsWithinParsed(old_, newLabels);
    EveryPairMatchesOrMoves(pairs);
    if Enough(share, Matches(pairs), parsed) {
      EnoughForFewer(share, Matches(pairs), |pairs|, parsed);
    }
  }

  /** Without noise the verdicts differ exactly when everything comparable agrees, something is
      comparable, and a reply is missing for a fixture the old arm labelled. */
  lemma ZeroNoiseGateDiffers(oldRuns: seq<Runs>, newLabels: Runs, newRuns: Option<seq<Runs>>)
    requires Noise(oldRuns, newRuns) == 0.0
    ensures var pairs := Pairs(Modals(oldRuns), newLabels);
            Passed(oldRuns, newLabels, newRuns) != DocumentedPassed(oldRuns, newLabels, newRuns) <==>
              pairs != [] && Matches(pairs) == |pairs| && !AllReplied(Modals(oldRuns), newLabels)
  {
    hide Binomial.PValue, Noise, Matches, Pairs, MoreBullish, MoreBearish, Modals, Passed, DocumentedPassed;
    hide OldParsed, AllReplied, Binomial.PValue;
    GateDiffersExactly(oldRuns, newLabels, newRuns);
    ZeroNoiseGate(oldRuns, newLabels, newRuns);
    PassedByCounts(oldRuns, newLabels, newRuns);
    PairsWithinParsed(Modals(oldRuns), newLabels);
  }

  /** Such an evaluation: the old arm says buy twice, the new one once, and its other reply has no label. */
  lemma MissingReplyPasses()
    ensures var oldRuns := [[Some(Buy)], [Some(Buy)]];
            && Passed(oldRuns, [Some(Buy), None], None)
            && !DocumentedPassed(oldRuns, [Some(Buy), None], None)
  {
    var (oldRuns, replies) := ([[Some(Buy)], [Some(Buy)]], [Some(Buy), None]);
    BuyTwice();
    ZeroNoiseGate(oldRuns, replies, None);
    ZeroNoiseGateDiffers(oldRuns, replies, None);
  }

  lemma BuyTwice()
    ensures var oldRuns := [[Some(Buy)], [Some(Buy)]];
            && Noise(oldRuns, None) == 0.0
            && Pairs(Modals(oldRuns), [Some(Buy), None]) == [(Buy, Buy)]
            && Matches([(Buy, Buy)]) == 1
            && !AllReplied(Modals(oldRuns), [Some(Buy), None])
  {
    var run: Runs := [Some(Buy)];
    OneBuy();
    hide Parsed, Modal, Disagreement, Fraction, ModalOf;
    assert [run, run][1..] == [run] && [run][1..] == [];
    QuietFractions(run);
    assert Modals([run]) == [Some(Buy)] + Modals([]);
    assert Modals([run, run]) == [Some(Buy)] + Modals([run]);
    var modals, replies := [Some(Buy), Some(Buy)], [Some(Buy), None];
    assert modals[1..] == [Some(Buy)] && replies[1..] == [None];
    MissingPair(Some(Buy));
    assert modals[1].Some? && replies[1].None?;
    assert [(Buy, Buy)][1..] == [];
  }

  lemma OneBuy()
    ensures Fraction([Some(Buy)]) == [0.0] && ModalOf([Some(Buy)]) == Some(Buy)
  {
    var run: Runs := [Some(Buy)];
    assert run[1..] == [] && Parsed(run) == [Buy] + Parsed([]);
    assert [Buy][1..] == [] && Count([Buy], Buy) == 1 && Modal([Buy]) == Buy;
  }

  lemma QuietFractions(run: Runs)
    requires Fraction(run) == [0.0]
    ensures Noise([run, run], None) == 0.0
  {
    hide Fraction;
    assert [run, run][1..] == [run] && [run][1..] == [];
    assert Fractions([run]) == Fraction(run) + Fractions([]);
    assert Fractions([run, run]) == [0.0, 0.0];
    NoiseFloorBound([run, run]);
  }
}
