/**
 * The per-row decision procedure of `compute_actions`: the required-check
 * gate, the sell signal, the buy gate and the first-match-wins classifier.
 */
module Rules {
  import opened Wrappers
  import opened Cells
  import opened Text
  import opened Rows

  /** The five quality flags a configuration can require. */
  datatype Check = PassDebt | PassInterestCover | PassFcf | PassRoic | PassPayout {

    /** The column name, which is also the identifier reported in reasons. */
    function Name(): string {
      match this
      case PassDebt => "pass_debt"
      case PassInterestCover => "pass_interest_cover"
      case PassFcf => "pass_fcf"
      case PassRoic => "pass_roic"
      case PassPayout => "pass_payout"
    }

    /** Position in the order the required-check gate reports failures. */
    function Rank(): nat {
      match this
      case PassDebt => 0
      case PassInterestCover => 1
      case PassFcf => 2
      case PassRoic => 3
      case PassPayout => 4
    }

    /** Position in the order the watch list is built (payout before ROIC). */
    function WatchRank(): nat {
      match this
      case PassDebt => 0
      case PassInterestCover => 1
      case PassFcf => 2
      case PassPayout => 3
      case PassRoic => 4
    }
  }

  /** The row's value of a quality flag, `None` when the column is absent. */
  function Flag(r: Row, c: Check): Option<bool> {
    match c
    case PassDebt => r.passDebt
    case PassInterestCover => r.passInterestCover
    case PassFcf => r.passFcf
    case PassRoic => r.passRoic
    case PassPayout => r.passPayout
  }

  /** The position of a check in one of the engine's two fixed orders:
      the required-check order, or (`watch`) the watch-list order. */
  function Position(c: Check, watch: bool): nat {
    if watch then c.WatchRank() else c.Rank()
  }

  /** Strictly increasing positions: the fixed order, without repetition. */
  predicate Ascending(xs: seq<Check>, watch: bool) {
    forall i, j :: 0 <= i < j < |xs| ==> Position(xs[i], watch) < Position(xs[j], watch)
  }

  /** Every check in `xs` comes before `c` in the order. */
  predicate Below(xs: seq<Check>, c: Check, watch: bool) {
    forall i :: 0 <= i < |xs| ==> Position(xs[i], watch) < Position(c, watch)
  }

  /** `[c]` when `keep` holds, else nothing: one conditional `append`. */
  function AppendIf(keep: bool, c: Check): seq<Check> {
    if keep then [c] else []
  }

  lemma AppendAscending(acc: seq<Check>, keep: bool, c: Check, watch: bool)
    requires Ascending(acc, watch) && Below(acc, c, watch)
    ensures Ascending(acc + AppendIf(keep, c), watch)
  {
  }

  lemma AppendBelow(acc: seq<Check>, keep: bool, c: Check, watch: bool, next: Check)
    requires Ascending(acc, watch) && Below(acc, c, watch) && Position(c, watch) < Position(next, watch)
    ensures Ascending(acc + AppendIf(keep, c), watch) && Below(acc + AppendIf(keep, c), next, watch)
  {
    AppendAscending(acc, keep, c, watch);
  }

  /** Five conditional appends of checks in increasing position give a list
      in increasing position. */
  lemma AppendsAscending(b0: bool, b1: bool, b2: bool, b3: bool, b4: bool,
                             c0: Check, c1: Check, c2: Check, c3: Check, c4: Check, watch: bool)
    requires Position(c0, watch) < Position(c1, watch) < Position(c2, watch) < Position(c3, watch) < Position(c4, watch)
    ensures Ascending(AppendIf(b0, c0) + AppendIf(b1, c1) + AppendIf(b2, c2) + AppendIf(b3, c3) + AppendIf(b4, c4), watch)
  {
    var s0 := AppendIf(b0, c0);
    assert [] + s0 == s0;
    AppendBelow([], b0, c0, watch, c1);
    var s1 := s0 + AppendIf(b1, c1);
    AppendBelow(s0, b1, c1, watch, c2);
    var s2 := s1 + AppendIf(b2, c2);
    AppendBelow(s1, b2, c2, watch, c3);
    var s3 := s2 + AppendIf(b3, c3);
    AppendBelow(s2, b3, c3, watch, c4);
    AppendAscending(s3, b4, c4, watch);
  }

  /** Five conditional appends hold exactly the checks whose condition held. */
  lemma AppendsMembers(b0: bool, b1: bool, b2: bool, b3: bool, b4: bool,
                           c0: Check, c1: Check, c2: Check, c3: Check, c4: Check, x: Check)
    ensures x in AppendIf(b0, c0) + AppendIf(b1, c1) + AppendIf(b2, c2) + AppendIf(b3, c3) + AppendIf(b4, c4)
            <==> (b0 && x == c0) || (b1 && x == c1) || (b2 && x == c2) || (b3 && x == c3) || (b4 && x == c4)
  {
  }

  lemma AppendsAllMembers(b0: bool, b1: bool, b2: bool, b3: bool, b4: bool,
                              c0: Check, c1: Check, c2: Check, c3: Check, c4: Check)
    ensures forall x ::
              (x in AppendIf(b0, c0) + AppendIf(b1, c1) + AppendIf(b2, c2) + AppendIf(b3, c3) + AppendIf(b4, c4)
               <==> (b0 && x == c0) || (b1 && x == c1) || (b2 && x == c2) || (b3 && x == c3) || (b4 && x == c4))
  {
    forall x {
      AppendsMembers(b0, b1, b2, b3, b4, c0, c1, c2, c3, c4, x);
    }
  }

  /** Whether the configuration switches the check on. */
  predicate Required(cfg: Config, c: Check) {
    match c
    case PassDebt => cfg.requireDebt
    case PassInterestCover => cfg.requireInterest
    case PassFcf => cfg.requireFcf
    case PassRoic => cfg.requireRoic
    case PassPayout => cfg.requirePayout
  }

  function Names(cs: seq<Check>): (r: seq<string>)
    ensures |r| == |cs|
    ensures forall i :: 0 <= i < |cs| ==> r[i] == cs[i].Name()
  {
    seq(|cs|, i requires 0 <= i < |cs| => cs[i].Name())
  }

  /** Check names are non-empty and hold neither ',' nor ':'. */
  lemma NamesPlain(cs: seq<Check>)
    ensures forall i :: 0 <= i < |cs| ==> Names(cs)[i] != "" && ',' !in Names(cs)[i] && ':' !in Names(cs)[i]
  {
  }

  /**
   * `_passes_required`: the switched-on checks whose flag is false or
   * missing, in the fixed order debt, interest cover, FCF, ROIC, payout,
   * without repetition.
   */
  function PassesRequired(r: Row, cfg: Config): (failed: seq<Check>)
    ensures forall c :: c in failed <==> Required(cfg, c) && Flag(r, c) != Some(true)
    ensures Ascending(failed, false)
  {
    var debt := cfg.requireDebt && !SafeGet(r.passDebt, false);
    var interest := cfg.requireInterest && !SafeGet(r.passInterestCover, false);
    var fcf := cfg.requireFcf && !SafeGet(r.passFcf, false);
    var roic := cfg.requireRoic && !SafeGet(r.passRoic, false);
    var payout := cfg.requirePayout && !SafeGet(r.passPayout, false);
    AppendsAscending(debt, interest, fcf, roic, payout, PassDebt, PassInterestCover, PassFcf, PassRoic, PassPayout, false);
    AppendsAllMembers(debt, interest, fcf, roic, payout, PassDebt, PassInterestCover, PassFcf, PassRoic, PassPayout);
    AppendIf(debt, PassDebt) + AppendIf(interest, PassInterestCover) + AppendIf(fcf, PassFcf) + AppendIf(roic, PassRoic) + AppendIf(payout, PassPayout)
  }

  /**
   * `sell_signal`: sell when QUALITY_PASS is present and false (a missing
   * column counts as passing here) or when a required check fails. The
   * QUALITY_PASS reason takes precedence over the " / "-joined failures.
   */
  function SellSignal(r: Row, cfg: Config): (res: (bool, string))
    ensures res.0 <==> r.qualityPass == Some(false) || PassesRequired(r, cfg) != []
    ensures r.qualityPass == Some(false) ==> res.1 == "QUALITY_PASS=FALSE"
    ensures r.qualityPass != Some(false) ==> res.1 == Join(Names(PassesRequired(r, cfg)), " / ")
  {
    if !SafeGet(r.qualityPass, true) then (true, "QUALITY_PASS=FALSE")
    else
      var failed := PassesRequired(r, cfg);
      if failed != [] then (true, Join(Names(failed), " / ")) else (false, "")
  }

  /** The outcome of `buy_gate`, one constructor per returned reason. The
      drawdown of an INSUFFICIENT_DRAWDOWN reason is kept as a number. */
  datatype GateReason =
    | EntryNotPermitted
    | QualityNotPassed
    | NoBuyCandidateOrScore
    | InsufficientDrawdown(dd: real)
    | FailedRequired(checks: seq<Check>)
    | EntryOkWithFlags(checks: seq<Check>)
    | EntryOk
  {
    /** The boolean `buy_gate` returns with the reason. */
    predicate Admits() {
      EntryOkWithFlags? || EntryOk?
    }

    /** The reason text of an admitting gate, which becomes REASON_BUY. */
    function ReasonText(): string
      requires Admits()
    {
      if EntryOk? then "ENTRY_OK" else FlagsPrefix + Join(Names(checks), ",")
    }
  }

  const FlagsPrefix := "ENTRY_OK_WITH_FLAGS:"

  /** `score_ok`: the score is a number at least SCORE_BUY_MIN; NaN or a missing column never qualifies. */
  predicate ScoreOk(r: Row, cfg: Config) {
    match SafeGet(r.score, NaN)
    case Fin(v) => v >= cfg.scoreBuyMin
    case NaN => false
  }

  /** The drawdown is a number above DD_BUY, i.e. not deep enough. */
  predicate TooShallow(dd: Num, cfg: Config) {
    dd.Fin? && dd.v > cfg.ddBuy
  }

  /** The four conditions `buy_gate` tests before the required checks. */
  predicate EntryConditions(r: Row, cfg: Config) {
    && r.entryPermitted == Some(true)
    && r.qualityPass == Some(true)
    && (r.buyCandidate == Some(true) || ScoreOk(r, cfg))
    && !TooShallow(r.ddNorm, cfg)
  }

  /**
   * `buy_gate`: entry permitted, QUALITY_PASS true (a missing column counts
   * as failing here), a buy candidate or a qualifying score, a drawdown
   * that is NaN or at most DD_BUY, and no failed required check unless
   * speculation is allowed; the first condition that fails names the reason.
   */
  function BuyGate(r: Row, cfg: Config): (g: GateReason)
    ensures g.Admits() <==> EntryConditions(r, cfg) && (PassesRequired(r, cfg) == [] || cfg.allowSpeculative)
    ensures r.entryPermitted != Some(true) ==> g == EntryNotPermitted
    ensures r.entryPermitted == Some(true) && r.qualityPass != Some(true) ==> g == QualityNotPassed
    ensures (r.entryPermitted == Some(true) && r.qualityPass == Some(true)
             && !(r.buyCandidate == Some(true) || ScoreOk(r, cfg))) ==> g == NoBuyCandidateOrScore
    ensures (r.entryPermitted == Some(true) && r.qualityPass == Some(true)
             && (r.buyCandidate == Some(true) || ScoreOk(r, cfg)) && TooShallow(r.ddNorm, cfg))
            ==> g == InsufficientDrawdown(r.ddNorm.v)
    ensures EntryConditions(r, cfg) && PassesRequired(r, cfg) == [] ==> g == EntryOk
    ensures EntryConditions(r, cfg) && PassesRequired(r, cfg) != [] ==>
            g == (if cfg.allowSpeculative then EntryOkWithFlags(PassesRequired(r, cfg))
                  else FailedRequired(PassesRequired(r, cfg)))
  {
    if !SafeGet(r.entryPermitted, false) then EntryNotPermitted
    else if !SafeGet(r.qualityPass, false) then QualityNotPassed
    else
      var buyCandidate := SafeGet(r.buyCandidate, false);
      if !(buyCandidate || ScoreOk(r, cfg)) then NoBuyCandidateOrScore
      else if TooShallow(r.ddNorm, cfg) then InsufficientDrawdown(r.ddNorm.v)
      else
        var failed := PassesRequired(r, cfg);
        if failed != [] then
          if cfg.allowSpeculative then EntryOkWithFlags(failed) else FailedRequired(failed)
        else EntryOk
  }

  /** The six action labels. */
  datatype Action = ReviewSell | StrongBuy | SpeculativeWatch | Buy | Watch | Hold {

    function Label(): string {
      match this
      case ReviewSell => "REVIEW SELL"
      case StrongBuy => "STRONG BUY"
      case SpeculativeWatch => "SPECULATIVE / WATCH"
      case Buy => "BUY"
      case Watch => "WATCH"
      case Hold => "HOLD"
    }

    /** BUY_SIGNAL. */
    predicate BuySignal() {
      this == Buy || this == StrongBuy
    }

    /** SELL_SIGNAL. */
    predicate SellSignal() {
      this == ReviewSell
    }
  }

  /** The four columns `decide` produces. */
  datatype Decision = Decision(action: Action, reasonBuy: string, reasonSell: string, failedChecks: string)

  /**
   * The admitted branch of `decide`: the flag list is recovered from the
   * gate's reason text by string surgery, then STRONG BUY needs a drawdown
   * at most DD_STRONG and no flags, SPECULATIVE / WATCH needs flags and
   * speculation allowed, and anything else is BUY.
   */
  function ClassifyAdmitted(g: GateReason, dd: Num, cfg: Config): (d: Decision)
    requires g.Admits()
    ensures d.action == StrongBuy || d.action == SpeculativeWatch || d.action == Buy
    ensures d.reasonBuy == g.ReasonText() && d.reasonSell == ""
    ensures d.action == StrongBuy ==> dd.Fin? && dd.v <= cfg.ddStrong
    ensures d.action == SpeculativeWatch ==> cfg.allowSpeculative && d.failedChecks != ""
    ensures d.action != SpeculativeWatch ==> d.failedChecks == ""
    ensures g.EntryOk? ==> d.action == (if dd.Fin? && dd.v <= cfg.ddStrong then StrongBuy else Buy)
  {
    assert g.EntryOk? ==> !StartsWith(g.ReasonText(), FlagsPrefix);
    var rb := g.ReasonText();
    var flags := if StartsWith(rb, FlagsPrefix) then Replace(rb, FlagsPrefix, "") else "";
    var failed := if flags != "" then Replace(flags, ",", " / ") else "";
    if dd.Fin? && dd.v <= cfg.ddStrong && failed == "" then Decision(StrongBuy, rb, "", "")
    else if failed != "" && cfg.allowSpeculative then Decision(SpeculativeWatch, rb, "", failed)
    else Decision(Buy, rb, "", "")
  }

  /** The present quality flags that are false, in the order debt, interest
      cover, FCF, payout, ROIC. */
  function WatchFlags(r: Row): (w: seq<Check>)
    ensures forall c :: c in w <==> Flag(r, c) == Some(false)
    ensures Ascending(w, true)
  {
    var debt := r.passDebt == Some(false);
    var interest := r.passInterestCover == Some(false);
    var fcf := r.passFcf == Some(false);
    var payout := r.passPayout == Some(false);
    var roic := r.passRoic == Some(false);
    AppendsAscending(debt, interest, fcf, payout, roic, PassDebt, PassInterestCover, PassFcf, PassPayout, PassRoic, true);
    AppendsAllMembers(debt, interest, fcf, payout, roic, PassDebt, PassInterestCover, PassFcf, PassPayout, PassRoic);
    AppendIf(debt, PassDebt) + AppendIf(interest, PassInterestCover) + AppendIf(fcf, PassFcf) + AppendIf(payout, PassPayout) + AppendIf(roic, PassRoic)
  }

  /** `decide`: sell first, then the buy gate, then the watch list, else HOLD. */
  function Decide(r: Row, cfg: Config): (d: Decision)
    ensures d.action == ReviewSell <==> SellSignal(r, cfg).0
    ensures d.action == ReviewSell ==> d == Decision(ReviewSell, "", SellSignal(r, cfg).1, SellSignal(r, cfg).1)
    ensures d.action.BuySignal() ==> EntryConditions(r, cfg) && d == Decision(d.action, "ENTRY_OK", "", "")
    ensures d.action != SpeculativeWatch
    ensures d.action == Watch ==>
              && r.entryPermitted == Some(true) && WatchFlags(r) != []
              && d == Decision(Watch, "", Join(Names(WatchFlags(r)), " / "), Join(Names(WatchFlags(r)), " / "))
    ensures d.action == Hold ==> d == Decision(Hold, "", "", "")
  {
    var sell := SellSignal(r, cfg);
    if sell.0 then Decision(ReviewSell, "", sell.1, sell.1)
    else
      var g := BuyGate(r, cfg);
      if g.Admits() then ClassifyAdmitted(g, r.ddNorm, cfg)
      else
        var watch := if SafeGet(r.entryPermitted, false) then WatchFlags(r) else [];
        if watch != [] then
          var joined := Join(Names(watch), " / ");
          Decision(Watch, "", joined, joined)
        else Decision(Hold, "", "", "")
  }
}
