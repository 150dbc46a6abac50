/**
 * Cell coercion: how one loosely typed spreadsheet cell becomes a boolean,
 * a number, or "not a number", and how a drawdown figure is brought to a
 * fraction. The model gives every cell a result; the two cases where the
 * engine raises instead (an integer too long for `str`, an integer too large
 * for `float`) are not modelled.
 */
module Cells {
  import opened Text

  /** A floating-point value as the engine sees it: a finite number or NaN. */
  datatype Num = NaN | Fin(v: real)

  /**
   * A raw cell, by the kind of value the table holds in it.
   * `Null` is every value pandas' `isna` accepts (None, NaN, NA).
   * `Bool` is Python's `bool`, which is a subclass of `int`;
   * `NpBool` is numpy's `bool_`, which is not.
   */
  datatype Cell =
    | Null
    | Bool(b: bool)
    | NpBool(b: bool)
    | Int(i: int)
    | Float(x: real)
    | Text(s: string)

  /** The words `_to_bool` reads as true, after stripping and lower-casing. */
  const Affirmative: set<string> := {"true", "1", "yes", "y", "sim", "s", "ok"}

  /** The text rule shared by every non-boolean cell: `str(x).strip().lower()` is affirmative. */
  predicate TextIsTrue(s: string) {
    Lower(Strip(s)) in Affirmative
  }

  /**
   * `_to_bool`. Python's text of a float (`"1.0"`, `"1e+16"`) always holds
   * a '.' or an 'e' and otherwise only digits and signs, so it is never one
   * of the affirmative words; see `FloatTextNeverTrue`.
   */
  function ToBool(c: Cell): (r: bool)
    ensures c.Null? || c.Float? ==> !r
    ensures c.Bool? || c.NpBool? ==> r == c.b
    ensures c.Int? ==> (r <==> c.i == 1)
    ensures c.Text? ==> (r <==> Lower(Strip(c.s)) in Affirmative)
  {
    match c
    case Null => false
    case Bool(b) => b
    case NpBool(b) => b
    case Int(i) =>
      IntTextIsTrue(i);
      TextIsTrue(IntString(i))
    case Float(_) => false
    case Text(s) => TextIsTrue(s)
  }

  /** Among words made of digits and minus signs, only "1" is affirmative. */
  lemma NumericAffirmative(t: string)
    requires forall k :: 0 <= k < |t| ==> IsDigit(t[k]) || t[k] == '-'
    ensures t in Affirmative <==> t == "1"
  {
    AffirmativeShape();
    if |t| > 0 {
      assert IsDigit(t[0]) || t[0] == '-';
    }
  }

  /** Every affirmative word is non-empty and starts with one of '1', 't', 'y', 's', 'o'; only "1" starts with '1'. */
  lemma AffirmativeShape()
    ensures forall w :: w in Affirmative ==> |w| > 0 && w[0] in "1tyso" && (w[0] == '1' ==> w == "1")
  {
  }

  lemma CanonicalNumericText(s: string)
    requires Strip(s) == s && Lower(s) == s
    requires forall k :: 0 <= k < |s| ==> IsDigit(s[k]) || s[k] == '-'
    ensures TextIsTrue(s) <==> s == "1"
  {
    NumericAffirmative(s);
  }

  /** `str(i)` is affirmative exactly for the integer one. */
  lemma IntTextIsTrue(i: int)
    ensures TextIsTrue(IntString(i)) <==> i == 1
  {
    IntStringCanonical(i);
    CanonicalNumericText(IntString(i));
    IntStringIsOne(i);
  }

  /** The shape of Python's `repr` of a finite float. */
  predicate FloatTextShape(s: string) {
    && (forall k :: 0 <= k < |s| ==> IsDigit(s[k]) || s[k] in ".e+-")
    && ('.' in s || 'e' in s)
  }

  /** Justifies reading every float cell as false in `ToBool`. */
  lemma FloatTextNeverTrue(s: string)
    requires FloatTextShape(s)
    ensures !TextIsTrue(s)
  {
    FloatTextCanonical(s);
    assert s !in Affirmative by {
      AffirmativeShape();
      if |s| > 0 {
        assert IsDigit(s[0]) || s[0] in ".e+-";
      }
    }
  }

  lemma FloatTextCanonical(s: string)
    requires FloatTextShape(s)
    ensures Strip(s) == s && Lower(s) == s
  {
    assert Trimmed(s) by {
      if s != [] {
        assert IsDigit(s[0]) || s[0] in ".e+-";
        assert IsDigit(s[|s| - 1]) || s[|s| - 1] in ".e+-";
      }
    }
    assert [] + s + [] == s;
    StripOf([], s, []);
    assert forall k :: 0 <= k < |s| ==> LowerChar(s[k]) == s[k];
  }

  /** The truth value of text padded by whitespace is decided by its lower-cased core. */
  lemma TextIsTrueOf(w: string, m: string, w': string)
    requires AllSpace(w) && AllSpace(w') && Trimmed(m)
    ensures TextIsTrue(w + m + w') <==> Lower(m) in Affirmative
  {
    StripOf(w, m, w');
  }

  /** Whitespace around a cell's text never changes its truth value. */
  lemma ToBoolIgnoresPadding(w: string, s: string, w': string)
    requires AllSpace(w) && AllSpace(w')
    ensures ToBool(Text(w + s + w')) == ToBool(Text(s))
  {
    StripIgnoresPadding(w, s, w');
  }

  /** The truth value of a text cell ignores letter case. */
  lemma ToBoolIgnoresCase(s: string)
    ensures ToBool(Text(Lower(s))) == ToBool(Text(s))
  {
    var m := Strip(s);
    LowerStripCommute(s);
    LowerIdempotent(m);
    assert Lower(Strip(Lower(s))) == Lower(m);
  }

  /** A word typed with capitals reads as true: "Sim", "YES". */
  lemma ToBoolCapitalised()
    ensures ToBool(Text("Sim")) && ToBool(Text("YES"))
  {
    assert [] + "Sim" + [] == "Sim";
    TextIsTrueOf([], "Sim", []);
    assert Lower("Sim") == "sim";
    assert [] + "YES" + [] == "YES";
    TextIsTrueOf([], "YES", []);
    assert Lower("YES") == "yes";
  }

  /** "1" and a padded " ok " read as true. */
  lemma ToBoolPlainWords()
    ensures ToBool(Text("1")) && ToBool(Text(" ok "))
  {
    assert [] + "1" + [] == "1";
    TextIsTrueOf([], "1", []);
    assert Lower("1") == "1";
    assert " " + "ok" + " " == " ok ";
    TextIsTrueOf(" ", "ok", " ");
    assert Lower("ok") == "ok";
  }

  /** "no", "" and a missing value read as false; so do every integer but 1 and every float. */
  lemma ToBoolFalseExamples()
    ensures !ToBool(Text("no")) && !ToBool(Text("")) && !ToBool(Null)
    ensures !ToBool(Int(2)) && !ToBool(Float(1.0))
  {
    TextIsTrueOf([], "no", []);
    assert [] + "no" + [] == "no";
    assert Lower("no") == "no";
    TextIsTrueOf([], "", []);
    assert [] + "" + [] == "";
  }

  /** The cleaning `_to_num` applies to text, one character at a time:
      '%' is dropped, ',' becomes '.', every other character is kept. */
  function Clean(t: string): (r: string)
    ensures |r| <= |t|
    ensures '%' !in r && ',' !in r
    decreases |t|
  {
    if t == [] then []
    else (if t[0] == '%' then "" else if t[0] == ',' then "." else [t[0]]) + Clean(t[1..])
  }

  /** The two `replace` calls of `_to_num` are the character-wise cleaning. */
  lemma {:induction false} CleanIsReplace(t: string)
    ensures Replace(Replace(t, "%", ""), ",", ".") == Clean(t)
    decreases |t|
  {
    if t != [] {
      var h := [t[0]];
      assert t == h + t[1..];
      ReplaceCharConcat(h, t[1..], '%', "");
      var h' := Replace(h, "%", "");
      assert h' == if t[0] == '%' then "" else h;
      ReplaceCharConcat(h', Replace(t[1..], "%", ""), ',', ".");
      assert Replace(h', ",", ".") == if t[0] == '%' then "" else if t[0] == ',' then "." else h;
      CleanIsReplace(t[1..]);
    }
  }

  /** The text `_to_num` hands to `float()`: the stripped text, cleaned. */
  function NumberText(s: string): (r: string)
    ensures r == Clean(Strip(s))
    ensures '%' !in r && ',' !in r
  {
    CleanIsReplace(Strip(s));
    Replace(Replace(Strip(s), "%", ""), ",", ".")
  }

  /**
   * `_to_num`. `parse` stands for Python's `float()` on text, returning NaN
   * where `float()` raises; its grammar is not part of this model.
   */
  function ToNum(c: Cell, parse: string -> Num): (r: Num)
    ensures c.Null? ==> r == NaN
    ensures c.Bool? ==> r == Fin(if c.b then 1.0 else 0.0)
    ensures c.Int? ==> r == Fin(c.i as real)
    ensures c.Float? ==> r == Fin(c.x)
    ensures c.Text? ==> r == parse(NumberText(c.s))
    ensures c.NpBool? ==> r == parse(if c.b then "True" else "False")
  {
    match c
    case Null => NaN
    case Bool(b) => Fin(if b then 1.0 else 0.0)
    case Int(i) => Fin(i as real)
    case Float(x) => Fin(x)
    case NpBool(b) =>
      var t := if b then "True" else "False";
      NumberTextOfWord(t);
      parse(NumberText(t))
    case Text(s) => parse(NumberText(s))
  }

  /** Text without whitespace, '%' or ',' reaches `float()` unchanged. */
  lemma NumberTextOfWord(t: string)
    requires forall k :: 0 <= k < |t| ==> !IsSpace(t[k]) && t[k] != '%' && t[k] != ','
    ensures NumberText(t) == t
  {
    assert Trimmed(t);
    assert t == [] + t + [];
    StripOf([], t, []);
    ReplaceAbsent(t, "%", "", '%');
    ReplaceAbsent(t, ",", ".", ',');
  }

  /** Whitespace around a numeric text never changes the number read. */
  lemma ToNumIgnoresPadding(w: string, s: string, w': string, parse: string -> Num)
    requires AllSpace(w) && AllSpace(w')
    ensures ToNum(Text(w + s + w'), parse) == ToNum(Text(s), parse)
  {
    StripIgnoresPadding(w, s, w');
  }

  /** A percent sign is dropped: "25%" reaches `float()` as "25". */
  lemma NumberTextDropsPercent()
    ensures NumberText("25%") == "25"
  {
    assert Strip("25%") == "25%" by {
      assert [] + "25%" + [] == "25%";
      StripOf([], "25%", []);
    }
    assert Replace("25%", "%", "") == "25";
    assert Replace("25", ",", ".") == "25" by {
      ReplaceAbsent("25", ",", ".", ',');
    }
  }

  /** A decimal comma becomes a point and padding is stripped: " -0,25 " reaches `float()` as "-0.25". */
  lemma NumberTextDecimalComma()
    ensures NumberText(" -0,25 ") == "-0.25"
  {
    assert Strip(" -0,25 ") == "-0,25" by {
      assert " " + "-0,25" + " " == " -0,25 ";
      StripOf(" ", "-0,25", " ");
    }
    assert Replace("-0,25", "%", "") == "-0,25" by {
      ReplaceAbsent("-0,25", "%", "", '%');
    }
    ReplaceDecimalComma();
  }

  lemma ReplaceDecimalComma()
    ensures Replace("-0,25", ",", ".") == "-0.25"
  {
  }

  /**
   * `_normalize_drawdown`: a value of -1 or below is read as percentage
   * points and divided by 100; anything else, positives included, is
   * already a fraction and passes through; NaN stays NaN.
   */
  function NormalizeDrawdown(x: Num): (r: Num)
    ensures r.NaN? <==> x.NaN?
    ensures x.Fin? && x.v <= -1.0 ==> r.v * 100.0 == x.v
    ensures x.Fin? && x.v > -1.0 ==> r == x
  {
    match x
    case NaN => NaN
    case Fin(v) => if v <= -1.0 then Fin(v / 100.0) else x
  }

  /** The worked examples of `_normalize_drawdown`, and the -1 edge case. */
  lemma NormalizeDrawdownExamples()
    ensures NormalizeDrawdown(Fin(-25.0)) == Fin(-0.25)
    ensures NormalizeDrawdown(Fin(-0.25)) == Fin(-0.25)
    ensures NormalizeDrawdown(Fin(-1.0)) == Fin(-0.01)
  {
  }

  /** A drawdown above -100%, written either as a fraction or as percentage
      points, lands strictly above -1 and is not moved by a second pass. */
  lemma NormalizeDrawdownSettles(x: Num)
    requires x.Fin? && x.v > -100.0
    ensures NormalizeDrawdown(x).v > -1.0
    ensures NormalizeDrawdown(NormalizeDrawdown(x)) == NormalizeDrawdown(x)
  {
  }

  /** At -100 percentage points and below, a second pass divides again. */
  lemma NormalizeDrawdownNotIdempotent()
    ensures NormalizeDrawdown(NormalizeDrawdown(Fin(-100.0))) != NormalizeDrawdown(Fin(-100.0))
  {
  }
}
