/**
 * `compute_actions` end to end: convert each row's cells, decide, add the
 * two signal columns, sort.
 */
module Engine {
  import opened Wrappers
  import opened Cells
  import opened Rows
  import opened Rules
  import opened RuleFacts
  import opened Ordering

  /** One row with its decision columns and BUY_SIGNAL / SELL_SIGNAL. */
  function Annotate(r: Row, cfg: Config): (a: Annotated)
    ensures a.row == r && a.decision == Decide(r, cfg)
    ensures a.buy <==> a.decision.action == Buy || a.decision.action == StrongBuy
    ensures a.sell <==> a.decision.action == ReviewSell
    ensures !(a.buy && a.sell)
  {
    var d := Decide(r, cfg);
    Annotated(r, d, d.action.BuySignal(), d.action.SellSignal())
  }

  /** Every input row converted and annotated, in input order. */
  function AnnotateAll(raw: seq<RawRow>, cfg: Config, parse: string -> Num): (rows: seq<Annotated>)
    ensures |rows| == |raw|
    ensures forall i :: 0 <= i < |raw| ==> rows[i] == Annotate(NormalizeRow(raw[i], parse), cfg)
  {
    seq(|raw|, i requires 0 <= i < |raw| => Annotate(NormalizeRow(raw[i], parse), cfg))
  }

  /**
   * `compute_actions`: the output holds exactly the annotated input rows,
   * as many as went in, sorted by BUY_SIGNAL, SELL_SIGNAL and score.
   */
  function ComputeActions(raw: seq<RawRow>, settings: Settings, parse: string -> Num): (out: seq<Annotated>)
    ensures |out| == |raw|
    ensures Sorted(out)
    ensures multiset(out) == multiset(AnnotateAll(raw, Resolve(settings), parse))
  {
    var rows := AnnotateAll(raw, Resolve(settings), parse);
    var sorted := SortRows(rows);
    assert |sorted| == |multiset(sorted)| == |multiset(rows)| == |rows|;
    sorted
  }

  /** Each output row is an input row, converted and annotated. */
  lemma OutputRow(raw: seq<RawRow>, settings: Settings, parse: string -> Num, k: int) returns (i: int)
    requires 0 <= k < |raw|
    ensures 0 <= i < |raw|
    ensures ComputeActions(raw, settings, parse)[k] == Annotate(NormalizeRow(raw[i], parse), Resolve(settings))
  {
    var out := ComputeActions(raw, settings, parse);
    var rows := AnnotateAll(raw, Resolve(settings), parse);
    assert out[k] in multiset(rows);
    i :| 0 <= i < |rows| && rows[i] == out[k];
  }

  /** The decision and signals of each output row agree with the reference
      table: never SPECULATIVE / WATCH, BUY_SIGNAL never together with
      SELL_SIGNAL. */
  lemma OutputSignals(raw: seq<RawRow>, settings: Settings, parse: string -> Num, k: int)
    requires 0 <= k < |raw|
    ensures var a := ComputeActions(raw, settings, parse)[k];
            var cfg := Resolve(settings);
            && a.decision == Decide(a.row, cfg)
            && a.decision.action == Expected(a.row, cfg)
            && (a.sell <==> Sells(a.row, cfg))
            && (a.buy <==> !Sells(a.row, cfg) && EntryConditions(a.row, cfg))
            && !(a.buy && a.sell)
  {
    var i := OutputRow(raw, settings, parse, k);
    var r := NormalizeRow(raw[i], parse);
    DecideAction(r, Resolve(settings));
    DecideSignals(r, Resolve(settings));
  }

  /**
   * Feeding the output back in gives the same table: the output's converted
   * columns, written back as cells and converted again with any float
   * parser, decide the same way, so the second run holds the same rows and
   * puts the same BUY_SIGNAL, SELL_SIGNAL and score at every position.
   */
  lemma RerunSameTable(raw: seq<RawRow>, settings: Settings, parse: string -> Num, parse': string -> Num)
    ensures var out := ComputeActions(raw, settings, parse);
            var again := ComputeActions(seq(|out|, i requires 0 <= i < |out| => Recognised(out[i].row)), settings, parse');
            multiset(again) == multiset(out)
            && forall i :: 0 <= i < |out| ==> Key(again[i]) == Key(out[i])
  {
    var cfg := Resolve(settings);
    var out := ComputeActions(raw, settings, parse);
    var back := seq(|out|, i requires 0 <= i < |out| => Recognised(out[i].row));
    var rows := AnnotateAll(back, cfg, parse');
    forall i | 0 <= i < |out|
      ensures rows[i] == out[i]
    {
      var all := AnnotateAll(raw, cfg, parse);
      assert out[i] in multiset(all);
      var j :| 0 <= j < |all| && all[j] == out[i];
      NormalizeRowIdempotent(raw[j], parse, parse');
    }
    assert rows == out;
    var again := ComputeActions(back, settings, parse');
    SortedKeysUnique(again, out);
  }
}
