/**
 * What `decide` amounts to. `Expected` is a decision table written directly
 * over the row's columns, without the reason strings and without the
 * re-parsing of the buy gate's reason; the lemmas show `Decide` follows it,
 * and draw the consequences: the SPECULATIVE / WATCH branch is dead, the
 * speculation switch changes nothing, tighter thresholds never add a buy.
 */
module RuleFacts {
  import opened Wrappers
  import opened Cells
  import opened Text
  import opened Rows
  import opened Rules

  /** Some switched-on check has a flag that is false or missing. */
  predicate RequiredFails(r: Row, cfg: Config) {
    exists c :: Required(cfg, c) && Flag(r, c) != Some(true)
  }

  /** The structural break that makes a row a sell. */
  predicate Sells(r: Row, cfg: Config) {
    r.qualityPass == Some(false) || RequiredFails(r, cfg)
  }

  /** Some quality flag is present and false. */
  predicate HasFalseFlag(r: Row) {
    exists c :: Flag(r, c) == Some(false)
  }

  /** The reference decision table. */
  function Expected(r: Row, cfg: Config): Action {
    if Sells(r, cfg) then ReviewSell
    else if EntryConditions(r, cfg) then
      if r.ddNorm.Fin? && r.ddNorm.v <= cfg.ddStrong then StrongBuy else Buy
    else if r.entryPermitted == Some(true) && HasFalseFlag(r) then Watch
    else Hold
  }

  /** The failure list is empty exactly when no switched-on check fails. */
  lemma PassesRequiredEmpty(r: Row, cfg: Config)
    ensures PassesRequired(r, cfg) == [] <==> !RequiredFails(r, cfg)
  {
    var failed := PassesRequired(r, cfg);
    if failed != [] {
      assert failed[0] in failed;
    }
  }

  /** `sell_signal` fires exactly on a structural break. */
  lemma SellSignalIff(r: Row, cfg: Config)
    ensures SellSignal(r, cfg).0 <==> Sells(r, cfg)
  {
    PassesRequiredEmpty(r, cfg);
  }

  /** The watch list is empty exactly when no flag is present and false. */
  lemma WatchFlagsEmpty(r: Row)
    ensures WatchFlags(r) == [] <==> !HasFalseFlag(r)
  {
    var w := WatchFlags(r);
    if w != [] {
      assert w[0] in w;
    }
  }

  /** The admitted branch of `decide` for a plain ENTRY_OK: STRONG BUY when
      the drawdown is a number at most DD_STRONG, otherwise BUY. */
  lemma ClassifyEntryOk(dd: Num, cfg: Config)
    ensures ClassifyAdmitted(EntryOk, dd, cfg)
            == Decision(if dd.Fin? && dd.v <= cfg.ddStrong then StrongBuy else Buy, "ENTRY_OK", "", "")
  {
    assert !StartsWith("ENTRY_OK", FlagsPrefix);
  }

  /** The gate's reason text `ENTRY_OK_WITH_FLAGS:` followed by the
      comma-joined failures gives back the failures, now " / "-joined. */
  lemma FlagsRecovered(f: seq<Check>)
    requires f != []
    ensures Replace(FlagsPrefix + Join(Names(f), ","), FlagsPrefix, "") == Join(Names(f), ",")
    ensures Join(Names(f), ",") != ""
    ensures Replace(Join(Names(f), ","), ",", " / ") == Join(Names(f), " / ")
  {
    var names := Names(f);
    var joined := Join(names, ",");
    NamesPlain(f);
    JoinEmpty(names, ",");
    if ':' in joined {
      JoinChars(names, ",", ':');
      assert false;
    }
    var s := FlagsPrefix + joined;
    assert s[..|FlagsPrefix|] == FlagsPrefix;
    assert s[|FlagsPrefix|..] == joined;
    ReplaceAbsent(joined, FlagsPrefix, "", ':');
    JoinReseparate(names);
  }

  /**
   * The flagged branch of `decide`, taken on its own: a non-empty failure
   * list in an admitting gate reason never yields STRONG BUY, and with
   * speculation allowed yields SPECULATIVE / WATCH whose FAILED_CHECKS is
   * the " / "-joined failures.
   */
  lemma ClassifyFlagged(f: seq<Check>, dd: Num, cfg: Config)
    requires f != []
    ensures ClassifyAdmitted(EntryOkWithFlags(f), dd, cfg).action
            == (if cfg.allowSpeculative then SpeculativeWatch else Buy)
    ensures cfg.allowSpeculative ==>
              ClassifyAdmitted(EntryOkWithFlags(f), dd, cfg).failedChecks == Join(Names(f), " / ")
  {
    FlagsRecovered(f);
    assert StartsWith(EntryOkWithFlags(f).ReasonText(), FlagsPrefix);
  }

  /**
   * The buy gate on its own does admit rows with failed required checks
   * when speculation is allowed, and classifying that admission gives
   * SPECULATIVE / WATCH.
   */
  lemma GateAdmitsWithFlags(r: Row, cfg: Config)
    requires EntryConditions(r, cfg) && RequiredFails(r, cfg) && cfg.allowSpeculative
    ensures BuyGate(r, cfg) == EntryOkWithFlags(PassesRequired(r, cfg))
    ensures ClassifyAdmitted(BuyGate(r, cfg), r.ddNorm, cfg).action == SpeculativeWatch
  {
    PassesRequiredEmpty(r, cfg);
    ClassifyFlagged(PassesRequired(r, cfg), r.ddNorm, cfg);
  }

  /** Behind a quiet sell signal the buy gate admits only with a plain
      ENTRY_OK: the failure list it would flag is already known to be empty. */
  lemma GateAfterSellIsPlain(r: Row, cfg: Config)
    requires !SellSignal(r, cfg).0
    ensures BuyGate(r, cfg).Admits() <==> EntryConditions(r, cfg)
    ensures BuyGate(r, cfg).Admits() ==> BuyGate(r, cfg) == EntryOk
  {
    SellSignalIff(r, cfg);
    PassesRequiredEmpty(r, cfg);
  }

  /** `decide` follows the reference decision table. */
  lemma DecideAction(r: Row, cfg: Config)
    ensures Decide(r, cfg).action == Expected(r, cfg)
  {
    SellSignalIff(r, cfg);
    PassesRequiredEmpty(r, cfg);
    WatchFlagsEmpty(r);
    if !Sells(r, cfg) && EntryConditions(r, cfg) {
      assert BuyGate(r, cfg) == EntryOk;
      ClassifyEntryOk(r.ddNorm, cfg);
    }
  }

  /** The SPECULATIVE / WATCH label is never produced: a failed required
      check makes the row a sell before the buy gate is consulted. */
  lemma DecideNeverSpeculative(r: Row, cfg: Config)
    ensures Decide(r, cfg).action != SpeculativeWatch
  {
    DecideAction(r, cfg);
  }

  /** A sell copies the sell reason into REASON_SELL and FAILED_CHECKS. */
  lemma SellReasons(r: Row, cfg: Config)
    ensures Sells(r, cfg) ==>
              Decide(r, cfg) == Decision(ReviewSell, "", SellSignal(r, cfg).1, SellSignal(r, cfg).1)
  {
    SellSignalIff(r, cfg);
  }

  /** A buy carries the reason ENTRY_OK and nothing else. */
  lemma BuyReasons(r: Row, cfg: Config)
    ensures Decide(r, cfg).action.BuySignal() ==>
              Decide(r, cfg) == Decision(Decide(r, cfg).action, "ENTRY_OK", "", "")
  {
    DecideAction(r, cfg);
    SellSignalIff(r, cfg);
    PassesRequiredEmpty(r, cfg);
    if !Sells(r, cfg) && EntryConditions(r, cfg) {
      assert BuyGate(r, cfg) == EntryOk;
      ClassifyEntryOk(r.ddNorm, cfg);
    }
  }

  /** A WATCH row names its false flags, " / "-joined, in REASON_SELL and
      FAILED_CHECKS; HOLD leaves every reason column empty. */
  lemma WatchReasons(r: Row, cfg: Config)
    ensures Decide(r, cfg).action == Watch ==>
              var joined := Join(Names(WatchFlags(r)), " / ");
              joined != "" && Decide(r, cfg) == Decision(Watch, "", joined, joined)
    ensures Decide(r, cfg).action == Hold ==> Decide(r, cfg) == Decision(Hold, "", "", "")
  {
    if Decide(r, cfg).action == Watch {
      DecideAction(r, cfg);
      SellSignalIff(r, cfg);
      WatchFlagsEmpty(r);
      NamesPlain(WatchFlags(r));
      JoinEmpty(Names(WatchFlags(r)), " / ");
    }
  }

  /** A WATCH row lists only checks the configuration does not require:
      a required check that is false would have made the row a sell. */
  lemma WatchExcludesRequired(r: Row, cfg: Config)
    ensures Decide(r, cfg).action == Watch ==>
              WatchFlags(r) != [] && forall c :: c in WatchFlags(r) ==> !Required(cfg, c)
  {
    DecideAction(r, cfg);
    WatchFlagsEmpty(r);
  }

  /** The QUALITY_PASS=FALSE answer of the buy gate is reached from `decide`
      only when the QUALITY_PASS column is missing: a present false value
      has already made the row a sell. */
  lemma QualityGateOnlyWhenAbsent(r: Row, cfg: Config)
    requires !SellSignal(r, cfg).0 && BuyGate(r, cfg) == QualityNotPassed
    ensures r.qualityPass == None
  {
    SellSignalIff(r, cfg);
  }

  /** ALLOW_SPECULATIVE does not change any output column of `decide`. */
  lemma AllowSpeculativeIrrelevant(r: Row, cfg: Config, allow: bool)
    ensures Decide(r, cfg) == Decide(r, cfg.(allowSpeculative := allow))
  {
    var cfg' := cfg.(allowSpeculative := allow);
    assert PassesRequired(r, cfg') == PassesRequired(r, cfg);
    SellSignalIff(r, cfg);
    PassesRequiredEmpty(r, cfg);
    if !Sells(r, cfg) && EntryConditions(r, cfg) {
      assert BuyGate(r, cfg) == EntryOk;
      assert BuyGate(r, cfg') == EntryOk;
    }
  }

  /** Without an ENTRY_PERMITTED or a QUALITY_PASS column a row is never a buy. */
  lemma MissingGateColumnsNeverBuy(r: Row, cfg: Config)
    requires r.entryPermitted == None || r.qualityPass == None
    ensures !Decide(r, cfg).action.BuySignal()
  {
    DecideAction(r, cfg);
  }

  /** BUY_SIGNAL and SELL_SIGNAL in terms of the reference conditions. */
  lemma DecideSignals(r: Row, cfg: Config)
    ensures Decide(r, cfg).action.SellSignal() <==> Sells(r, cfg)
    ensures Decide(r, cfg).action.BuySignal() <==> !Sells(r, cfg) && EntryConditions(r, cfg)
  {
    DecideAction(r, cfg);
  }

  /** Raising SCORE_BUY_MIN never turns a row into a buy. */
  lemma StricterScoreNeverAddsBuy(r: Row, cfg: Config, minimum: real)
    requires minimum >= cfg.scoreBuyMin
    ensures Decide(r, cfg.(scoreBuyMin := minimum)).action.BuySignal() ==> Decide(r, cfg).action.BuySignal()
  {
    var cfg' := cfg.(scoreBuyMin := minimum);
    DecideSignals(r, cfg);
    DecideSignals(r, cfg');
    PassesRequiredEmpty(r, cfg);
    PassesRequiredEmpty(r, cfg');
  }

  /** Lowering DD_BUY (asking for a deeper drawdown) never turns a row into a buy. */
  lemma DeeperDrawdownNeverAddsBuy(r: Row, cfg: Config, threshold: real)
    requires threshold <= cfg.ddBuy
    ensures Decide(r, cfg.(ddBuy := threshold)).action.BuySignal() ==> Decide(r, cfg).action.BuySignal()
  {
    var cfg' := cfg.(ddBuy := threshold);
    DecideSignals(r, cfg);
    DecideSignals(r, cfg');
    PassesRequiredEmpty(r, cfg);
    PassesRequiredEmpty(r, cfg');
  }
}
