/** The calculator tool (`perform_calculation`): drop one leading phrase, hand the rest
    to the safe expression evaluator, and format either the result or the error.
    The evaluator itself is an oracle. */
module Calculator {
  import opened Wrappers
  import opened PyStr

  /** The leading phrases that are removed, in the order they are tried. */
  const Prefixes: seq<string> := ["calculate ", "what is ", "solve "]

  /** The expression evaluator: the rendered value, or the message of the exception it raised. */
  type Evaluator = string -> Result<string, string>

  /** Python's `s[n:]`, which is empty when `n` is past the end. */
  function Drop(s: string, n: nat): string {
    if n <= |s| then s[n..] else []
  }

  /** The prefix loop: every phrase of `ps` that the lower-cased original input `lower`
      starts with is cut from the front of the current expression `e`. */
  function CutPrefixes(lower: string, e: string, ps: seq<string>): string
    decreases |ps|
  {
    if ps == [] then e
    else CutPrefixes(lower, if StartsWith(lower, ps[0]) then Drop(e, |ps[0]|) else e, ps[1..])
  }

  /** The expression that is evaluated for the user's input `text`. */
  function ExpressionOf(text: string): string {
    CutPrefixes(Lower(text), text, Prefixes)
  }

  /** At most one phrase is removed: the one the lower-cased input starts with, if any;
      the remainder keeps the input's own case. */
  lemma ExpressionOfCases(text: string)
    ensures (forall k :: 0 <= k < |Prefixes| ==> !StartsWith(Lower(text), Prefixes[k]))
      ==> ExpressionOf(text) == text
    ensures forall k :: (0 <= k < |Prefixes| && StartsWith(Lower(text), Prefixes[k])
      ==> ExpressionOf(text) == text[|Prefixes[k]|..])
  {
    var lower := Lower(text);
    assert Prefixes[1..][1..][1..] == [];
    if StartsWith(lower, Prefixes[0]) {
      assert lower[0] == 'c';
      assert !StartsWith(lower, Prefixes[1]) && !StartsWith(lower, Prefixes[2]);
    } else if StartsWith(lower, Prefixes[1]) {
      assert lower[0] == 'w';
      assert !StartsWith(lower, Prefixes[2]);
    }
  }

  /** The text `perform_calculation` returns for `text`, given the evaluator. */
  function CalcMessage(text: string, eval: Evaluator): string {
    var e := ExpressionOf(text);
    match eval(e)
    case Ok(v) => "Expression: " + e + "\nResult: " + v
    case Err(m) => "Error calculating '" + e + "': " + m
  }

  /** `perform_calculation`: the prefix loop reassigns the expression, then the evaluator
      runs once. */
  method PerformCalculation(text: string, eval: Evaluator) returns (msg: string)
    ensures msg == CalcMessage(text, eval)
  {
    var lower := Lower(text);
    var e := text;
    for i := 0 to |Prefixes|
      invariant CutPrefixes(lower, e, Prefixes[i..]) == ExpressionOf(text)
    {
      assert Prefixes[i..][1..] == Prefixes[i + 1..];
      if StartsWith(lower, Prefixes[i]) {
        e := Drop(e, |Prefixes[i]|);
      }
    }
    match eval(e)
    case Ok(v) =>
      msg := "Expression: " + e + "\nResult: " + v;
    case Err(m) =>
      msg := "Error calculating '" + e + "': " + m;
  }

  /** What a `calc` action shows for a calculator message: the text after "Result: " when
      there is one, otherwise the whole message. */
  function CalcContent(msg: string): (c: string)
    ensures !Contains(msg, "Result: ") ==> c == msg
  {
    if Contains(msg, "Result: ") then Strip(Split(msg, "Result: ")[1]) else msg
  }

  /** No occurrence of "Result: " starts inside the "Expression: ...\n" head of a success
      message when the expression itself holds none. */
  lemma NoMarkerInHead(e: string, v: string)
    requires !Contains(e, "Result: ")
    ensures forall k :: (0 <= k < |"Expression: " + e + "\n"|
      ==> !OccursAt("Expression: " + e + "\n" + "Result: " + v, "Result: ", k))
  {
    var sep := "Result: ";
    var head := "Expression: " + e + "\n";
    var msg := head + sep + v;
    assert forall j :: 0 <= j < 12 ==> "Expression: "[j] != 'R';
    forall k | 0 <= k < |head|
      ensures !OccursAt(msg, sep, k)
    {
      if k < 12 {
        assert msg[k] == "Expression: "[k] != sep[0];
      } else if k + 8 <= 12 + |e| {
        assert !OccursAt(e, sep, k - 12);
        assert msg[k..k + 8] == e[k - 12..k - 4];
      } else if k + 8 <= |msg| {
        var p := 12 + |e|;
        assert msg[p] == '\n';
        assert sep[p - k] != '\n';
        assert msg[k..k + 8][p - k] == msg[p];
      }
    }
  }

  /** The calc content of a success message is its value, when neither the expression
      nor the value holds the "Result: " marker. */
  lemma ContentOfSuccessMessage(e: string, v: string)
    requires !Contains(e, "Result: ") && !Contains(v, "Result: ")
    ensures CalcContent("Expression: " + e + "\nResult: " + v) == Strip(v)
  {
    var head := "Expression: " + e + "\n";
    assert "Expression: " + e + "\nResult: " + v == head + "Result: " + v;
    NoMarkerInHead(e, v);
    SplitAfterFirst(head, "Result: ", v);
    assert OccursAt(head + "Result: " + v, "Result: ", |head|);
    assert Split(v, "Result: ") == [v];
  }

  /** A successful evaluation is shown as its (stripped) value, as long as neither the
      expression nor the value holds the "Result: " marker. */
  lemma CalcContentOfSuccess(text: string, eval: Evaluator)
    requires eval(ExpressionOf(text)).Ok?
    requires !Contains(ExpressionOf(text), "Result: ")
    requires !Contains(eval(ExpressionOf(text)).value, "Result: ")
    ensures CalcContent(CalcMessage(text, eval)) == Strip(eval(ExpressionOf(text)).value)
  {
    ContentOfSuccessMessage(ExpressionOf(text), eval(ExpressionOf(text)).value);
  }
}
