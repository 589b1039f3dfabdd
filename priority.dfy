/**
 * "First match wins" over an ordered list of yes/no answers. Used both for
 * the controller priority of a line arrow and for event propagation, where
 * a handler answering true stops the event and false lets it go on.
 */
module Priority {

  /** Index of the first true answer, or |answers| when every answer is false. */
  function FirstTrue(answers: seq<bool>): (k: nat)
    ensures k <= |answers|
    ensures forall j :: 0 <= j < k ==> !answers[j]
    ensures k < |answers| ==> answers[k]
  {
    if answers == [] then 0
    else if answers[0] then 0
    else 1 + FirstTrue(answers[1..])
  }

  /** Index of the last true answer, or -1 when every answer is false. */
  function LastTrue(answers: seq<bool>): (k: int)
    ensures -1 <= k < |answers|
    ensures forall j :: k < j < |answers| ==> !answers[j]
    ensures k >= 0 ==> answers[k]
  {
    if answers == [] then -1
    else if answers[|answers| - 1] then |answers| - 1
    else LastTrue(answers[..|answers| - 1])
  }

  /** The first true answer is the only index with a true answer and all false before it. */
  lemma FirstTrueUnique(answers: seq<bool>, k: nat)
    requires k <= |answers|
    requires forall j :: 0 <= j < k ==> !answers[j]
    requires k < |answers| ==> answers[k]
    ensures FirstTrue(answers) == k
  {
  }

  /** The last true answer is the only index with a true answer and all false after it. */
  lemma LastTrueUnique(answers: seq<bool>, k: int)
    requires -1 <= k < |answers|
    requires forall j :: k < j < |answers| ==> !answers[j]
    requires k >= 0 ==> answers[k]
    ensures LastTrue(answers) == k
  {
  }
}
