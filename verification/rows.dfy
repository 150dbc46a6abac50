/**
 * One screener row before and after cell coercion, and the engine's
 * configuration with its defaults.
 */
module Rows {
  import opened Wrappers
  import opened Cells

  /**
   * A row as it arrives. Each field is one recognised column; `None` means
   * the table has no such column. The free-text columns (ticker, name,
   * sector, drawdown_trigger) take no part in any decision and are not kept.
   */
  datatype RawRow = RawRow(
    price: Option<Cell>,
    drawdown: Option<Cell>,           // drawdown_from_52w_high
    fcfLastYear: Option<Cell>,
    fcfPositiveYears: Option<Cell>,   // fcf_positive_last_n_years
    fcfTrendSlope: Option<Cell>,
    passFcf: Option<Cell>,
    roicProxy: Option<Cell>,
    passRoic: Option<Cell>,
    payoutToFcf: Option<Cell>,
    passPayout: Option<Cell>,
    netDebtToEbitda: Option<Cell>,
    interestCover: Option<Cell>,
    passDebt: Option<Cell>,
    passInterestCover: Option<Cell>,
    qualityPass: Option<Cell>,        // QUALITY_PASS
    entryPermitted: Option<Cell>,     // ENTRY_PERMITTED
    buyCandidate: Option<Cell>,       // BUY_CANDIDATE
    score: Option<Cell>)

  /** A row after coercion: boolean columns hold booleans, numeric columns
      hold numbers or NaN, and `ddNorm` is the derived dd_norm column. */
  datatype Row = Row(
    price: Option<Num>,
    drawdown: Option<Num>,
    fcfLastYear: Option<Num>,
    fcfPositiveYears: Option<Num>,
    fcfTrendSlope: Option<Num>,
    passFcf: Option<bool>,
    roicProxy: Option<Num>,
    passRoic: Option<bool>,
    payoutToFcf: Option<Num>,
    passPayout: Option<bool>,
    netDebtToEbitda: Option<Num>,
    interestCover: Option<Num>,
    passDebt: Option<bool>,
    passInterestCover: Option<bool>,
    qualityPass: Option<bool>,
    entryPermitted: Option<bool>,
    buyCandidate: Option<bool>,
    score: Option<Num>,
    ddNorm: Num)

  /** `_safe_get`: the column's value, or `default` when the column is absent. */
  function SafeGet<T>(col: Option<T>, default: T): (r: T)
    ensures col.Some? ==> r == col.value
    ensures col.None? ==> r == default
  {
    col.GetOr(default)
  }

  /** A boolean column after `_to_bool` has been applied to it, if present. */
  function BoolColumn(col: Option<Cell>): (r: Option<bool>)
    ensures r.None? <==> col.None?
    ensures col.Some? ==> r == Some(ToBool(col.value))
  {
    match col
    case None => None
    case Some(c) => Some(ToBool(c))
  }

  /** A numeric column after `_to_num` has been applied to it, if present. */
  function NumColumn(col: Option<Cell>, parse: string -> Num): (r: Option<Num>)
    ensures r.None? <==> col.None?
    ensures col.Some? ==> r == Some(ToNum(col.value, parse))
  {
    match col
    case None => None
    case Some(c) => Some(ToNum(c, parse))
  }

  /** dd_norm: the normalised drawdown, NaN when the drawdown column is absent. */
  function DdNorm(drawdown: Option<Num>): (r: Num)
    ensures drawdown.None? ==> r.NaN?
    ensures drawdown.Some? ==> r == NormalizeDrawdown(drawdown.value)
  {
    match drawdown
    case None => NaN
    case Some(x) => NormalizeDrawdown(x)
  }

  /** The type conversions `compute_actions` makes before deciding. */
  function NormalizeRow(raw: RawRow, parse: string -> Num): (r: Row)
    ensures r.passDebt.None? <==> raw.passDebt.None?
    ensures r.passInterestCover.None? <==> raw.passInterestCover.None?
    ensures r.passFcf.None? <==> raw.passFcf.None?
    ensures r.passRoic.None? <==> raw.passRoic.None?
    ensures r.passPayout.None? <==> raw.passPayout.None?
    ensures r.qualityPass.None? <==> raw.qualityPass.None?
    ensures r.entryPermitted.None? <==> raw.entryPermitted.None?
    ensures r.buyCandidate.None? <==> raw.buyCandidate.None?
    ensures r.score.None? <==> raw.score.None?
    ensures r.price == NumColumn(raw.price, parse)
    ensures r.drawdown == NumColumn(raw.drawdown, parse)
    ensures r.fcfLastYear == NumColumn(raw.fcfLastYear, parse)
    ensures r.fcfPositiveYears == NumColumn(raw.fcfPositiveYears, parse)
    ensures r.fcfTrendSlope == NumColumn(raw.fcfTrendSlope, parse)
    ensures r.roicProxy == NumColumn(raw.roicProxy, parse)
    ensures r.payoutToFcf == NumColumn(raw.payoutToFcf, parse)
    ensures r.netDebtToEbitda == NumColumn(raw.netDebtToEbitda, parse)
    ensures r.interestCover == NumColumn(raw.interestCover, parse)
    ensures r.score == NumColumn(raw.score, parse)
    ensures r.passFcf == BoolColumn(raw.passFcf)
    ensures r.passRoic == BoolColumn(raw.passRoic)
    ensures r.passPayout == BoolColumn(raw.passPayout)
    ensures r.passDebt == BoolColumn(raw.passDebt)
    ensures r.passInterestCover == BoolColumn(raw.passInterestCover)
    ensures r.qualityPass == BoolColumn(raw.qualityPass)
    ensures r.entryPermitted == BoolColumn(raw.entryPermitted)
    ensures r.buyCandidate == BoolColumn(raw.buyCandidate)
    ensures raw.drawdown.None? ==> r.ddNorm.NaN?
    ensures raw.drawdown.Some? ==> r.ddNorm == NormalizeDrawdown(ToNum(raw.drawdown.value, parse))
  {
    var drawdown := NumColumn(raw.drawdown, parse);
    Row(
      NumColumn(raw.price, parse),
      drawdown,
      NumColumn(raw.fcfLastYear, parse),
      NumColumn(raw.fcfPositiveYears, parse),
      NumColumn(raw.fcfTrendSlope, parse),
      BoolColumn(raw.passFcf),
      NumColumn(raw.roicProxy, parse),
      BoolColumn(raw.passRoic),
      NumColumn(raw.payoutToFcf, parse),
      BoolColumn(raw.passPayout),
      NumColumn(raw.netDebtToEbitda, parse),
      NumColumn(raw.interestCover, parse),
      BoolColumn(raw.passDebt),
      BoolColumn(raw.passInterestCover),
      BoolColumn(raw.qualityPass),
      BoolColumn(raw.entryPermitted),
      BoolColumn(raw.buyCandidate),
      NumColumn(raw.score, parse),
      DdNorm(drawdown))
  }

  /** The cell a normalised value is written back as in the output table. */
  function BoolCell(b: Option<bool>): Option<Cell> {
    match b
    case None => None
    case Some(v) => Some(Bool(v))
  }

  function NumCell(x: Option<Num>): Option<Cell> {
    match x
    case None => None
    case Some(NaN) => Some(Null)
    case Some(Fin(v)) => Some(Float(v))
  }

  /** The recognised columns of an output row, as cells fed to a second run. */
  function Recognised(r: Row): RawRow {
    RawRow(
      NumCell(r.price), NumCell(r.drawdown), NumCell(r.fcfLastYear),
      NumCell(r.fcfPositiveYears), NumCell(r.fcfTrendSlope), BoolCell(r.passFcf),
      NumCell(r.roicProxy), BoolCell(r.passRoic), NumCell(r.payoutToFcf),
      BoolCell(r.passPayout), NumCell(r.netDebtToEbitda), NumCell(r.interestCover),
      BoolCell(r.passDebt), BoolCell(r.passInterestCover), BoolCell(r.qualityPass),
      BoolCell(r.entryPermitted), BoolCell(r.buyCandidate), NumCell(r.score))
  }

  lemma BoolColumnSettles(b: Option<bool>)
    ensures BoolColumn(BoolCell(b)) == b
  {
  }

  lemma NumColumnSettles(x: Option<Num>, parse: string -> Num)
    ensures NumColumn(NumCell(x), parse) == x
  {
  }

  /**
   * Coercion is idempotent: feeding the recognised columns of a normalised
   * row back through the engine's conversions gives the same row, whatever
   * text parser the second run uses. dd_norm is recomputed from the raw
   * drawdown column, which the engine leaves in place, so it is not
   * normalised twice.
   */
  lemma NormalizeRowIdempotent(raw: RawRow, parse: string -> Num, parse': string -> Num)
    ensures NormalizeRow(Recognised(NormalizeRow(raw, parse)), parse') == NormalizeRow(raw, parse)
  {
    var r := NormalizeRow(raw, parse);
    NumColumnSettles(r.price, parse');
    NumColumnSettles(r.drawdown, parse');
    NumColumnSettles(r.fcfLastYear, parse');
    NumColumnSettles(r.fcfPositiveYears, parse');
    NumColumnSettles(r.fcfTrendSlope, parse');
    NumColumnSettles(r.roicProxy, parse');
    NumColumnSettles(r.payoutToFcf, parse');
    NumColumnSettles(r.netDebtToEbitda, parse');
    NumColumnSettles(r.interestCover, parse');
    NumColumnSettles(r.score, parse');
    BoolColumnSettles(r.passFcf);
    BoolColumnSettles(r.passRoic);
    BoolColumnSettles(r.passPayout);
    BoolColumnSettles(r.passDebt);
    BoolColumnSettles(r.passInterestCover);
    BoolColumnSettles(r.qualityPass);
    BoolColumnSettles(r.entryPermitted);
    BoolColumnSettles(r.buyCandidate);
  }

  /** The thresholds and toggles `compute_actions` reads from its config mapping. */
  datatype Config = Config(
    scoreBuyMin: real,        // SCORE_BUY_MIN
    ddBuy: real,              // DD_BUY
    ddStrong: real,           // DD_STRONG
    requireDebt: bool,        // REQUIRE_PASS_DEBT
    requireInterest: bool,    // REQUIRE_PASS_INTEREST
    requireFcf: bool,         // REQUIRE_PASS_FCF
    requireRoic: bool,        // REQUIRE_PASS_ROIC
    requirePayout: bool,      // REQUIRE_PASS_PAYOUT
    allowSpeculative: bool)   // ALLOW_SPECULATIVE

  /** The config mapping as given; `None` is a missing key. */
  datatype Settings = Settings(
    scoreBuyMin: Option<real>,
    ddBuy: Option<real>,
    ddStrong: Option<real>,
    requireDebt: Option<bool>,
    requireInterest: Option<bool>,
    requireFcf: Option<bool>,
    requireRoic: Option<bool>,
    requirePayout: Option<bool>,
    allowSpeculative: Option<bool>)

  const NoSettings := Settings(None, None, None, None, None, None, None, None, None)

  /** Each key read with the engine's default when missing. */
  function Resolve(s: Settings): (c: Config)
    ensures s.scoreBuyMin.Some? ==> c.scoreBuyMin == s.scoreBuyMin.value
    ensures s.ddBuy.Some? ==> c.ddBuy == s.ddBuy.value
    ensures s.ddStrong.Some? ==> c.ddStrong == s.ddStrong.value
    ensures s.requireDebt.Some? ==> c.requireDebt == s.requireDebt.value
    ensures s.requireInterest.Some? ==> c.requireInterest == s.requireInterest.value
    ensures s.requireFcf.Some? ==> c.requireFcf == s.requireFcf.value
    ensures s.requireRoic.Some? ==> c.requireRoic == s.requireRoic.value
    ensures s.requirePayout.Some? ==> c.requirePayout == s.requirePayout.value
    ensures s.allowSpeculative.Some? ==> c.allowSpeculative == s.allowSpeculative.value
    ensures s.scoreBuyMin.None? ==> c.scoreBuyMin == 70.0
    ensures s.ddBuy.None? ==> c.ddBuy == -0.20
    ensures s.ddStrong.None? ==> c.ddStrong == -0.30
    ensures s.requireDebt.None? ==> c.requireDebt
    ensures s.requireInterest.None? ==> c.requireInterest
    ensures s.requireFcf.None? ==> c.requireFcf
    ensures s.requireRoic.None? ==> !c.requireRoic
    ensures s.requirePayout.None? ==> !c.requirePayout
    ensures s.allowSpeculative.None? ==> c.allowSpeculative
  {
    Config(
      s.scoreBuyMin.GetOr(70.0),
      s.ddBuy.GetOr(-0.20),
      s.ddStrong.GetOr(-0.30),
      s.requireDebt.GetOr(true),
      s.requireInterest.GetOr(true),
      s.requireFcf.GetOr(true),
      s.requireRoic.GetOr(false),
      s.requirePayout.GetOr(false),
      s.allowSpeculative.GetOr(true))
  }

  /** The defaults: score 70, drawdowns -20% and -30%, debt, interest cover
      and FCF required, ROIC and payout not, speculation allowed. */
  lemma DefaultConfig()
    ensures Resolve(NoSettings) == Config(70.0, -0.20, -0.30, true, true, true, false, false, true)
  {
  }
}
