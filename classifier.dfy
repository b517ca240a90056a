/** The ordered rule chain that maps one frame's features to a raw label. */
module Classifier {
  import opened Config

  datatype Label = Normal | Turn | Pothole | CrackRough | SpeedBreaker

  /** The features of a frame whose dominant contour qualified as anomaly geometry. */
  datatype Features = Features(
    area: real,
    aspectRatio: real,
    solidity: real,
    variance: real,
    angleVariance: real,
    meanFlow: real)

  /** The four rules of the chain; a frame no rule fires on is NORMAL. */
  datatype Rule = TurnRule | PotholeRule | CrackRule | SpeedBreakerRule

  predicate Fires(rule: Rule, f: Features)
  {
    match rule
    case TurnRule => f.angleVariance > TURN_ANGLE_VAR && f.meanFlow > TURN_FLOW
    case PotholeRule => f.variance > VAR_POTHOLE && f.solidity < POTHOLE_SOLIDITY
    case CrackRule => f.aspectRatio > CRACK_ASPECT && f.variance > VAR_CRACK
    case SpeedBreakerRule => f.area > SPEED_AREA && f.variance < VAR_SPEED
  }

  function Verdict(rule: Rule): (l: Label)
    ensures l != Normal
  {
    match rule
    case TurnRule => Turn
    case PotholeRule => Pothole
    case CrackRule => CrackRough
    case SpeedBreakerRule => SpeedBreaker
  }

  /** The priority order of the chain. */
  const RULE_ORDER: seq<Rule> := [TurnRule, PotholeRule, CrackRule, SpeedBreakerRule]

  /** Rule `i` is the first rule of `rules` that fires on `f`. */
  predicate FirstFiringAt(rules: seq<Rule>, i: int, f: Features)
  {
    0 <= i < |rules| && Fires(rules[i], f) && forall j :: 0 <= j < i ==> !Fires(rules[j], f)
  }

  /**
   * Reference semantics of an ordered rule list: the verdict of the first rule
   * that fires, NORMAL when none does.
   */
  function FirstMatch(rules: seq<Rule>, f: Features): (r: Label)
    ensures r == Normal <==> forall i :: 0 <= i < |rules| ==> !Fires(rules[i], f)
    ensures r != Normal ==> exists i :: FirstFiringAt(rules, i, f) && Verdict(rules[i]) == r
  {
    if rules == [] then Normal
    else if Fires(rules[0], f) then Verdict(rules[0])
    else
      var r := FirstMatch(rules[1..], f);
      assert r != Normal ==> exists i :: FirstFiringAt(rules, i, f) && Verdict(rules[i]) == r by {
        if r != Normal {
          var i :| FirstFiringAt(rules[1..], i, f) && Verdict(rules[1..][i]) == r;
          assert rules[i + 1] == rules[1..][i];
          forall j | 0 <= j < i + 1
            ensures !Fires(rules[j], f)
          {
            if j > 0 {
              assert rules[j] == rules[1..][j - 1];
            }
          }
          assert FirstFiringAt(rules, i + 1, f);
        }
      }
      r
  }

  /**
   * The if/elif chain: each label is returned exactly when its own rule fires
   * and every earlier rule does not; NORMAL exactly when no rule fires.
   */
  function Classify(f: Features): (r: Label)
    ensures r == Turn <==> Fires(TurnRule, f)
    ensures r == Pothole <==> !Fires(TurnRule, f) && Fires(PotholeRule, f)
    ensures r == CrackRough <==> !Fires(TurnRule, f) && !Fires(PotholeRule, f) && Fires(CrackRule, f)
    ensures r == SpeedBreaker <==>
      !Fires(TurnRule, f) && !Fires(PotholeRule, f) && !Fires(CrackRule, f) && Fires(SpeedBreakerRule, f)
    ensures r == Normal <==>
      !Fires(TurnRule, f) && !Fires(PotholeRule, f) && !Fires(CrackRule, f) && !Fires(SpeedBreakerRule, f)
  {
    if f.angleVariance > TURN_ANGLE_VAR && f.meanFlow > TURN_FLOW then Turn
    else if f.variance > VAR_POTHOLE && f.solidity < POTHOLE_SOLIDITY then Pothole
    else if f.aspectRatio > CRACK_ASPECT && f.variance > VAR_CRACK then CrackRough
    else if f.area > SPEED_AREA && f.variance < VAR_SPEED then SpeedBreaker
    else Normal
  }

  /** The chain is the first-match evaluation of the rules in priority order. */
  lemma ClassifyIsFirstMatch(f: Features)
    ensures Classify(f) == FirstMatch(RULE_ORDER, f)
  {
    var r3: seq<Rule> := [SpeedBreakerRule];
    var r2 := [CrackRule] + r3;
    var r1 := [PotholeRule] + r2;
    assert RULE_ORDER == [TurnRule] + r1;
    assert r3[1..] == [] && r2[1..] == r3 && r1[1..] == r2 && RULE_ORDER[1..] == r1;
    assert FirstMatch(r3, f) == if Fires(SpeedBreakerRule, f) then SpeedBreaker else Normal;
    assert FirstMatch(r2, f) == if Fires(CrackRule, f) then CrackRough else FirstMatch(r3, f);
    assert FirstMatch(r1, f) == if Fires(PotholeRule, f) then Pothole else FirstMatch(r2, f);
    assert FirstMatch(RULE_ORDER, f) == if Fires(TurnRule, f) then Turn else FirstMatch(r1, f);
  }

  /**
   * The rules are not exclusive on their own: a rough, concave, elongated patch
   * fires both the pothole and the crack rule, and the order makes it a pothole.
   */
  lemma PotholeOutranksCrack()
    ensures var f := Features(500.0, 4.0, 0.5, 200.0, 0.1, 0.0);
      Fires(PotholeRule, f) && Fires(CrackRule, f) && Classify(f) == Pothole
  {
  }

  /** Without turning flow, TURN is never the verdict. */
  lemma NoFlowNoTurn(f: Features)
    requires f.meanFlow <= TURN_FLOW
    ensures Classify(f) != Turn
  {
  }
}
