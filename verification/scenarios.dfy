/**
 * Worked examples of `compute_actions`' per-row decision under the default
 * configuration or one setting away from it, starting from raw cells.
 */
module Scenarios {
  import opened Wrappers
  import opened Cells
  import opened Text
  import opened Rows
  import opened Rules
  import opened RuleFacts

  /** A row that passes every gate: all flags true, entry permitted, a buy
      candidate, no score, a drawdown of -35 given in percent. */
  const Healthy: RawRow := RawRow(
    price := None, drawdown := Some(Int(-35)), fcfLastYear := None,
    fcfPositiveYears := None, fcfTrendSlope := None, passFcf := Some(Bool(true)),
    roicProxy := None, passRoic := Some(Bool(true)), payoutToFcf := None,
    passPayout := Some(Bool(true)), netDebtToEbitda := None, interestCover := None,
    passDebt := Some(Bool(true)), passInterestCover := Some(Bool(true)),
    qualityPass := Some(Bool(true)), entryPermitted := Some(Bool(true)),
    buyCandidate := Some(Bool(true)), score := None)

  /** QUALITY_PASS false: REVIEW SELL with the quality reason. */
  lemma QualityFailSells(parse: string -> Num)
    ensures Decide(NormalizeRow(Healthy.(qualityPass := Some(Bool(false))), parse), Resolve(NoSettings))
            == Decision(ReviewSell, "", "QUALITY_PASS=FALSE", "QUALITY_PASS=FALSE")
  {
    DefaultConfig();
  }

  /** Everything passing and a drawdown of -35 % (-0.35, deeper than the
      default DD_STRONG of -0.30): STRONG BUY. */
  lemma HealthyIsStrongBuy(parse: string -> Num)
    ensures Decide(NormalizeRow(Healthy, parse), Resolve(NoSettings)) == Decision(StrongBuy, "ENTRY_OK", "", "")
  {
    DefaultConfig();
    var r := NormalizeRow(Healthy, parse);
    assert r.ddNorm == Fin(-0.35);
    assert BuyGate(r, Resolve(NoSettings)) == EntryOk;
    ClassifyEntryOk(r.ddNorm, Resolve(NoSettings));
  }

  /** A failed required debt check with speculation allowed is still a sell:
      the sell signal runs before the buy gate, so the row never reaches
      SPECULATIVE / WATCH. */
  lemma FailedDebtSells(parse: string -> Num)
    ensures var settings := NoSettings.(requireDebt := Some(true), allowSpeculative := Some(true));
            Decide(NormalizeRow(Healthy.(passDebt := Some(Bool(false))), parse), Resolve(settings))
            == Decision(ReviewSell, "", "pass_debt", "pass_debt")
  {
    var settings := NoSettings.(requireDebt := Some(true), allowSpeculative := Some(true));
    var r := NormalizeRow(Healthy.(passDebt := Some(Bool(false))), parse);
    assert r.qualityPass == Some(true) && r.passInterestCover == Some(true) && r.passFcf == Some(true);
    assert r.passDebt == Some(false);
    assert PassesRequired(r, Resolve(settings)) == [PassDebt];
    assert SellSignal(r, Resolve(settings)) == (true, "pass_debt");
  }

  /** Entry not permitted and a false FCF flag: REVIEW SELL under the default
      configuration, where the FCF check is required. */
  lemma FcfFailSells(parse: string -> Num)
    ensures var raw := Healthy.(entryPermitted := Some(Bool(false)), passFcf := Some(Bool(false)));
            Decide(NormalizeRow(raw, parse), Resolve(NoSettings))
            == Decision(ReviewSell, "", "pass_fcf", "pass_fcf")
  {
    DefaultConfig();
    var r := NormalizeRow(Healthy.(entryPermitted := Some(Bool(false)), passFcf := Some(Bool(false))), parse);
    assert r.qualityPass == Some(true) && r.passDebt == Some(true) && r.passInterestCover == Some(true);
    assert r.passFcf == Some(false);
    assert PassesRequired(r, Resolve(NoSettings)) == [PassFcf];
    assert SellSignal(r, Resolve(NoSettings)) == (true, "pass_fcf");
  }

  /** With the FCF check not required, the same row is HOLD: the watch list
      is only built when entry is permitted. */
  lemma FcfFailUnpermittedHolds(parse: string -> Num)
    ensures var raw := Healthy.(entryPermitted := Some(Bool(false)), passFcf := Some(Bool(false)));
            Decide(NormalizeRow(raw, parse), Resolve(NoSettings.(requireFcf := Some(false))))
            == Decision(Hold, "", "", "")
  {
    var cfg := Resolve(NoSettings.(requireFcf := Some(false)));
    var r := NormalizeRow(Healthy.(entryPermitted := Some(Bool(false)), passFcf := Some(Bool(false))), parse);
    assert PassesRequired(r, cfg) == [];
    assert BuyGate(r, cfg) == EntryNotPermitted;
  }

  /** Entry permitted, not a buy candidate and no score, a false FCF flag that
      is not required: WATCH listing pass_fcf. */
  lemma FcfFailPermittedWatches(parse: string -> Num)
    ensures var raw := Healthy.(buyCandidate := Some(Bool(false)), passFcf := Some(Bool(false)));
            Decide(NormalizeRow(raw, parse), Resolve(NoSettings.(requireFcf := Some(false))))
            == Decision(Watch, "", "pass_fcf", "pass_fcf")
  {
    var cfg := Resolve(NoSettings.(requireFcf := Some(false)));
    var r := NormalizeRow(Healthy.(buyCandidate := Some(Bool(false)), passFcf := Some(Bool(false))), parse);
    assert PassesRequired(r, cfg) == [];
    assert BuyGate(r, cfg) == NoBuyCandidateOrScore;
    assert WatchFlags(r) == [PassFcf];
  }

  /** No score column and not a buy candidate, nothing else failing: HOLD. */
  lemma NoScoreHolds(parse: string -> Num)
    ensures Decide(NormalizeRow(Healthy.(buyCandidate := Some(Bool(false))), parse), Resolve(NoSettings))
            == Decision(Hold, "", "", "")
  {
    DefaultConfig();
    var r := NormalizeRow(Healthy.(buyCandidate := Some(Bool(false))), parse);
    assert PassesRequired(r, Resolve(NoSettings)) == [];
    assert BuyGate(r, Resolve(NoSettings)) == NoBuyCandidateOrScore;
    assert WatchFlags(r) == [];
  }
}
