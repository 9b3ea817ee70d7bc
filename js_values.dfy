/**
 * The JavaScript values the wizard keeps in its state, and the coercions the
 * source applies to them: truthiness, sparse array elements, and the numeric
 * comparison of an answer against a threshold.
 */
module JsValues {

  import opened Wrappers

  /** A file chosen in the browser; only its name and MIME type matter to the wizard. */
  datatype File = File(name: string, mimeType: string)

  /**
   * One element of a JavaScript array of files. A `Hole` is an index that was
   * never written (assigning past the end of an array leaves holes); an
   * `Undefined` is an element that holds the value `undefined`, which is what
   * spreading a sparse array (`[...a]`) turns every hole into.
   */
  datatype Slot = Hole | Undefined | Filled(file: File)

  /** A value of the `Record<string, any>` answers map; `Missing` is `undefined`. */
  datatype Value = Text(text: string) | Number(number: int) | Missing

  predicate Truthy(v: Value)
  {
    match v
    case Text(s) => s != ""
    case Number(n) => n != 0
    case Missing => false
  }

  /** A `string | null` tested for truthiness: both `null` and `""` are falsy. */
  predicate Present(s: Option<string>)
  {
    s.Some? && s.value != ""
  }

  /** `answers[key]`: a key that is not in the record reads as `undefined`. */
  function Lookup(answers: map<string, Value>, key: string): Value
  {
    if key in answers then answers[key] else Missing
  }

  /** A JavaScript number as the comparisons `>=` and `<=` see it. */
  datatype Score = Num(n: int) | NaN

  /** `s >= k`: false for NaN. */
  predicate AtLeast(s: Score, k: int)
  {
    s.Num? && s.n >= k
  }

  /** `s <= k`: false for NaN. */
  predicate AtMost(s: Score, k: int)
  {
    s.Num? && s.n <= k
  }

  predicate IsDigit(c: char)
  {
    '0' <= c <= '9'
  }

  predicate AllDigits(s: string)
  {
    forall i :: 0 <= i < |s| ==> IsDigit(s[i])
  }

  /** The value of a string of decimal digits. */
  function DecimalValue(s: string): (n: nat)
    requires AllDigits(s)
  {
    if s == [] then 0
    else DecimalValue(s[..|s| - 1]) * 10 + (s[|s| - 1] as int - '0' as int)
  }

  /**
   * `answers[key] || 0`, as a later comparison with a number sees it: a falsy
   * answer becomes 0, a number stays itself, a string of decimal digits is
   * converted to its decimal value, and any other string is NaN (hexadecimal,
   * octal and binary literals and "Infinity" included, which JavaScript would
   * convert).
   */
  function ScoreOf(answers: map<string, Value>, key: string): (s: Score)
    ensures !Truthy(Lookup(answers, key)) ==> s == Num(0)
    ensures Lookup(answers, key).Number? ==> s == Num(Lookup(answers, key).number)
    ensures Lookup(answers, key).Text? && Truthy(Lookup(answers, key)) ==>
              (s.NaN? <==> !AllDigits(Lookup(answers, key).text))
    ensures Lookup(answers, key).Text? && Truthy(Lookup(answers, key)) && AllDigits(Lookup(answers, key).text) ==>
              s == Num(DecimalValue(Lookup(answers, key).text))
  {
    var v := Lookup(answers, key);
    if !Truthy(v) then Num(0)
    else match v
      case Number(n) => Num(n)
      case Text(t) => if AllDigits(t) then Num(DecimalValue(t)) else NaN
      case Missing => Num(0)
  }

  /** The five answers a scale question offers, from "very rarely" to "always". */
  const ScaleLabels: seq<string> := ["Очень редко", "Редко", "Иногда", "Часто", "Всегда"]

  /** The index of a scale label, if `v` is one. */
  function ScaleIndex(v: Value): (r: Option<nat>)
    ensures r.Some? ==> r.value < |ScaleLabels| && v == Text(ScaleLabels[r.value])
    ensures r.None? ==> forall i :: 0 <= i < |ScaleLabels| ==> v != Text(ScaleLabels[i])
  {
    if v == Text(ScaleLabels[0]) then Some(0)
    else if v == Text(ScaleLabels[1]) then Some(1)
    else if v == Text(ScaleLabels[2]) then Some(2)
    else if v == Text(ScaleLabels[3]) then Some(3)
    else if v == Text(ScaleLabels[4]) then Some(4)
    else None
  }

  /**
   * The score the analysis evidently intends for an answer: a scale label
   * counts as its position on the scale, 1 to 5; every other answer is
   * coerced as `ScoreOf` does.
   */
  function ScaleScoreOf(answers: map<string, Value>, key: string): (s: Score)
    ensures forall i :: 0 <= i < |ScaleLabels| && Lookup(answers, key) == Text(ScaleLabels[i]) ==>
              s == Num(i + 1)
    ensures ScaleIndex(Lookup(answers, key)).None? ==> s == ScoreOf(answers, key)
    ensures s.Num? && ScaleIndex(Lookup(answers, key)).Some? ==> 1 <= s.n <= 5
  {
    match ScaleIndex(Lookup(answers, key))
    case Some(i) => Num(i + 1)
    case None => ScoreOf(answers, key)
  }

  /** No scale label is a number: each one begins with a letter. */
  lemma LabelsAreNotDigits(i: nat)
    requires i < |ScaleLabels|
    ensures !AllDigits(ScaleLabels[i]) && ScaleLabels[i] != ""
  {
    assert !IsDigit(ScaleLabels[i][0]);
  }

  /**
   * As written, a scale label compared with a threshold is NaN: it is neither
   * at least nor at most any score.
   */
  lemma LabelScoreIsNaN(answers: map<string, Value>, key: string, i: nat)
    requires i < |ScaleLabels| && Lookup(answers, key) == Text(ScaleLabels[i])
    ensures ScoreOf(answers, key) == NaN
    ensures forall k :: !AtLeast(ScoreOf(answers, key), k) && !AtMost(ScoreOf(answers, key), k)
  {
    LabelsAreNotDigits(i);
  }

  /**
   * With the intended scoring the thresholds of the analyses are reachable:
   * the two most frequent labels are at least 4, the two rarest at most 2,
   * and the middle one is neither.
   */
  lemma ScaleLabelsReachThresholds(answers: map<string, Value>, key: string, i: nat)
    requires i < |ScaleLabels| && Lookup(answers, key) == Text(ScaleLabels[i])
    ensures AtLeast(ScaleScoreOf(answers, key), 4) <==> i >= 3
    ensures AtMost(ScaleScoreOf(answers, key), 2) <==> i <= 1
  {
  }
}
