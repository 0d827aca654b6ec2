/**
 * Step outcomes and how a sequence's verdict is drawn from them. Every test
 * step ends in exactly one outcome; the sequence fails when any step failed,
 * passes when none failed and at least one passed, and is skipped otherwise.
 */
module Outcomes {

  datatype Outcome = Pass | Fail(message: string) | Skip(message: string)

  /** The result of one `assert` inside a step: it holds, or it fails with its message. */
  datatype Assertion = Holds | Fails(message: string)

  /** A value, or the error a Ruby expression raises instead of producing one. */
  datatype Result<T> = Ok(value: T) | Raised(error: string)

  datatype Verdict = SequencePass | SequenceFail | SequenceSkip

  /** An assertion's outcome when it is the last thing a step checks. */
  function AssertionOutcome(a: Assertion): (o: Outcome)
    ensures o == Pass <==> a == Holds
    ensures a.Fails? ==> o == Fail(a.message)
  {
    match a
    case Holds => Pass
    case Fails(m) => Fail(m)
  }

  /** `assert cond, message`. */
  function Expect(cond: bool, message: string): (a: Assertion)
    ensures a == Holds <==> cond
    ensures !cond ==> a.message == message
  {
    if cond then Holds else Fails(message)
  }

  /** The failed steps, in order (`sequence_result.failures`). */
  function Failures(results: seq<Outcome>): (fs: seq<Outcome>)
    ensures forall i :: 0 <= i < |fs| ==> fs[i].Fail?
    ensures |fs| == 0 <==> forall i :: 0 <= i < |results| ==> !results[i].Fail?
    ensures |fs| <= |results|
    decreases |results|
  {
    if results == [] then []
    else
      var rest := Failures(results[1..]);
      assert forall i :: 1 <= i < |results| ==> results[i] == results[1..][i - 1];
      if results[0].Fail? then [results[0]] + rest else rest
  }

  predicate AnyPass(results: seq<Outcome>)
  {
    exists i :: 0 <= i < |results| && results[i] == Pass
  }

  /** The sequence verdict drawn from its step outcomes. */
  function Aggregate(results: seq<Outcome>): (v: Verdict)
    ensures v == SequenceFail <==> exists i :: 0 <= i < |results| && results[i].Fail?
    ensures v == SequencePass <==> Failures(results) == [] && AnyPass(results)
    ensures v == SequenceSkip <==> forall i :: 0 <= i < |results| ==> results[i].Skip?
  {
    if Failures(results) != [] then SequenceFail
    else if AnyPass(results) then SequencePass
    else SequenceSkip
  }

  /** Adding a skipped step never changes the verdict. */
  lemma {:induction false} SkipIsNeutral(results: seq<Outcome>, message: string)
    ensures Aggregate(results + [Skip(message)]) == Aggregate(results)
  {
    var r := results + [Skip(message)];
    assert forall i :: 0 <= i < |results| ==> r[i] == results[i];
    if exists i :: 0 <= i < |results| && results[i].Fail? {
      var i :| 0 <= i < |results| && results[i].Fail?;
      assert r[i].Fail?;
    }
    if AnyPass(results) {
      var i :| 0 <= i < |results| && results[i] == Pass;
      assert r[i] == Pass;
    }
  }

  /** One failed step decides the verdict, whatever the other steps did. */
  lemma FailIsAbsorbing(before: seq<Outcome>, message: string, after: seq<Outcome>)
    ensures Aggregate(before + [Fail(message)] + after) == SequenceFail
  {
    var r := before + [Fail(message)] + after;
    assert r[|before|].Fail?;
  }
}
