/** Terminal input: the agent's sequence gate and the seeds the viewers number their input from. */
module InputGate {

  datatype Input = Input(sequence: int, data: string)

  /** An input reaching the agent: was the terminal there, and would the write succeed? */
  datatype Attempt = Attempt(input: Input, ready: bool, writes: bool)

  function Last(log: seq<Input>): int {
    if log == [] then -1 else log[|log| - 1].sequence
  }

  function Apply(log: seq<Input>, a: Attempt): seq<Input> {
    if a.input.sequence > Last(log) && a.ready && a.writes then log + [a.input] else log
  }

  predicate Acknowledged(log: seq<Input>, a: Attempt) {
    a.input.sequence <= Last(log) || (a.ready && a.writes)
  }

  /** What the terminal has received after these attempts. */
  function ApplyAll(log: seq<Input>, attempts: seq<Attempt>): seq<Input> {
    if attempts == [] then log else Apply(ApplyAll(log, attempts[..|attempts| - 1]), attempts[|attempts| - 1])
  }

  class Session {
    var terminal: bool
    var done: bool
    var lastInput: int
    var pty: seq<Input>
    var acknowledged: seq<int>

    /**
     * `lastInput` is the sequence of the last input the terminal received, or -1. Whatever it has
     * received has been acknowledged, and nothing above that.
     */
    ghost predicate Valid()
      reads this
    {
      && lastInput == Last(pty)
      && (forall i :: 0 <= i < |pty| ==> pty[i].sequence in acknowledged)
      && (forall s :: s in acknowledged ==> s <= lastInput)
    }

    constructor ()
      ensures Valid() && !terminal && !done && pty == [] && acknowledged == []
    {
      terminal, done, lastInput, pty, acknowledged := false, false, -1, [], [];
    }

    /** writeInput, serialized by its mutex; a terminal write takes effect entirely or not at all. */
    method WriteInput(input: Input, writes: bool)
      requires Valid()
      modifies this
      ensures Valid() && terminal == old(terminal) && done == old(done)
      ensures var a := Attempt(input, old(terminal) && !old(done), writes);
              && pty == Apply(old(pty), a)
              && acknowledged == if Acknowledged(old(pty), a) then old(acknowledged) + [input.sequence] else old(acknowledged)
      ensures old(lastInput) < input.sequence <= lastInput ==>
                pty == old(pty) + [input] && acknowledged == old(acknowledged) + [input.sequence]
      ensures input.sequence > lastInput ==> pty == old(pty) && acknowledged == old(acknowledged) && lastInput == old(lastInput)
    {
      if input.sequence <= lastInput {
        acknowledged := acknowledged + [input.sequence];
        return;
      }
      if !terminal || done { return; }
      if !writes { return; }
      pty := pty + [input];
      lastInput := input.sequence;
      acknowledged := acknowledged + [input.sequence];
    }
  }

  ghost predicate StrictlyIncreasing(log: seq<Input>) {
    forall i, j :: 0 <= i < j < |log| ==> log[i].sequence < log[j].sequence
  }

  /**
   * Whatever arrives, however often and in whatever order, the terminal receives strictly
   * increasing sequences, so no sequence twice.
   */
  lemma {:induction false} NeverWrittenTwice(attempts: seq<Attempt>)
    ensures var log := ApplyAll([], attempts); StrictlyIncreasing(log) && forall k :: 0 <= k < |log| ==> -1 < log[k].sequence <= Last(log)
  {
    if attempts != [] {
      NeverWrittenTwice(attempts[..|attempts| - 1]);
    }
  }

  lemma {:induction false} LastGrows(attempts: seq<Attempt>, i: nat, j: nat)
    requires i <= j <= |attempts|
    ensures Last(ApplyAll([], attempts[..i])) <= Last(ApplyAll([], attempts[..j]))
    decreases j
  {
    if i < j {
      LastGrows(attempts, i, j - 1);
      assert attempts[..j][..j - 1] == attempts[..j - 1];
    }
  }

  /** An acknowledged sequence is at most lastInput, then and from then on. */
  lemma AcknowledgedBelowLast(attempts: seq<Attempt>, i: nat, j: nat)
    requires i < j <= |attempts| && Acknowledged(ApplyAll([], attempts[..i]), attempts[i])
    ensures attempts[i].input.sequence <= Last(ApplyAll([], attempts[..j]))
  {
    LastGrows(attempts, i + 1, j);
    assert attempts[..i + 1][..i] == attempts[..i];
  }

  /** All acknowledgements after these attempts, in order. */
  function Acknowledgements(attempts: seq<Attempt>): seq<int> {
    if attempts == [] then []
    else
      var before, a := attempts[..|attempts| - 1], attempts[|attempts| - 1];
      Acknowledgements(before) + if Acknowledged(ApplyAll([], before), a) then [a.input.sequence] else []
  }

  lemma AcknowledgedStep(log: seq<Input>, a: Attempt)
    ensures Last(Apply(log, a)) >= Last(log) && (Acknowledged(log, a) <==> a.input.sequence <= Last(Apply(log, a)))
    ensures Apply(log, a) == log || (Apply(log, a) == log + [a.input] && Acknowledged(log, a))
  {
  }

  /** Everything the terminal has received has been acknowledged, and nothing above that. */
  lemma {:induction false} ReceivedMeansAcknowledged(attempts: seq<Attempt>)
    ensures forall k :: 0 <= k < |ApplyAll([], attempts)| ==> ApplyAll([], attempts)[k].sequence in Acknowledgements(attempts)
    ensures forall s :: s in Acknowledgements(attempts) ==> s <= Last(ApplyAll([], attempts))
  {
    if attempts != [] {
      var before, a := attempts[..|attempts| - 1], attempts[|attempts| - 1];
      ReceivedMeansAcknowledged(before);
      var log, acks := ApplyAll([], before), Acknowledgements(before);
      AcknowledgedStep(log, a);
      assert ApplyAll([], attempts) == Apply(log, a);
      assert Acknowledgements(attempts) == acks + if Acknowledged(log, a) then [a.input.sequence] else [];
      hide ApplyAll, Acknowledgements, Apply, Acknowledged, Last;
    }
  }

  /** An attempt is acknowledged exactly when by then the terminal has received its sequence or a later one. */
  lemma AcknowledgedIffReached(attempts: seq<Attempt>, j: nat)
    requires j < |attempts|
    ensures Acknowledgements(attempts[..j + 1]) == Acknowledgements(attempts[..j]) +
              if attempts[j].input.sequence <= Last(ApplyAll([], attempts[..j + 1])) then [attempts[j].input.sequence] else []
  {
    assert attempts[..j + 1][..j] == attempts[..j];
    AcknowledgedStep(ApplyAll([], attempts[..j]), attempts[j]);
  }

  /** With a willing terminal an input is written exactly when its sequence exceeds all before it. */
  lemma {:induction false} WrittenIffRecord(attempts: seq<Attempt>, j: nat)
    requires j < |attempts| && forall i :: 0 <= i < |attempts| ==> attempts[i].ready && attempts[i].writes
    ensures ApplyAll([], attempts[..j + 1]) == ApplyAll([], attempts[..j]) + [attempts[j].input]
            <==> attempts[j].input.sequence > -1 && forall i :: 0 <= i < j ==> attempts[i].input.sequence < attempts[j].input.sequence
  {
    assert attempts[..j + 1][..j] == attempts[..j];
    LastIsGreatest(attempts, j);
  }

  lemma {:induction false} LastIsGreatest(attempts: seq<Attempt>, j: nat)
    requires j <= |attempts| && forall i :: 0 <= i < |attempts| ==> attempts[i].ready && attempts[i].writes
    ensures var last := Last(ApplyAll([], attempts[..j]));
            && (forall i :: 0 <= i < j ==> attempts[i].input.sequence <= last)
            && last >= -1 && (last > -1 ==> exists i :: 0 <= i < j && attempts[i].input.sequence == last)
  {
    if j > 0 {
      assert attempts[..j][..j - 1] == attempts[..j - 1];
      LastIsGreatest(attempts, j - 1);
    }
  }

  // ----- seeds ----------------------------------------------------------------------

  /** createInputSequenceSeed; the entropy is a 16-bit random number. */
  function Seed(nowMilliseconds: nat, entropy: nat): nat {
    nowMilliseconds * 1000 + entropy % 1000
  }

  const ENTROPY_VALUES: nat := 65536

  /** The inputs of one view: consecutive sequences from its seed on. */
  function ViewInputs(seed: nat, data: seq<string>): seq<Input> {
    seq(|data|, i requires 0 <= i < |data| => Input(seed + i, data[i]))
  }

  function Willing(inputs: seq<Input>): seq<Attempt> {
    seq(|inputs|, i requires 0 <= i < |inputs| => Attempt(inputs[i], true, true))
  }

  /** Whatever the random parts, a later view starts above an earlier one's first `k` inputs exactly when it sent few enough. */
  lemma LaterSeedAboveIff(t1: nat, t2: nat, k: int)
    ensures (forall e1: nat, e2: nat :: e1 < ENTROPY_VALUES && e2 < ENTROPY_VALUES ==> Seed(t1, e1) + k - 1 < Seed(t2, e2))
            <==> k < 1000 * (t2 - t1) - 998
  {
    assert Seed(t1, 999) == t1 * 1000 + 999 && Seed(t2, 0) == t2 * 1000;
    assert Seed(t1, 999) + k - 1 < Seed(t2, 0) <==> k < 1000 * (t2 - t1) - 998;
  }

  lemma {:induction false} IncreasingAllWritten(log: seq<Input>, inputs: seq<Input>)
    requires forall k :: 0 <= k < |inputs| ==> Last(log) < inputs[k].sequence
    requires StrictlyIncreasing(inputs)
    ensures ApplyAll(log, Willing(inputs)) == log + inputs
  {
    if inputs == [] {
      assert log + inputs == log;
    } else {
      var n := |inputs| - 1;
      IncreasingAllWritten(log, inputs[..n]);
      assert Willing(inputs)[..n] == Willing(inputs[..n]);
      assert log + inputs == (log + inputs[..n]) + [inputs[n]];
    }
  }

  /** Views used one after the other: everything typed reaches the terminal, once and in order. */
  lemma ViewsInTurn(t1: nat, e1: nat, first: seq<string>, t2: nat, e2: nat, second: seq<string>)
    requires e1 < ENTROPY_VALUES && e2 < ENTROPY_VALUES && |first| < 1000 * (t2 - t1) - 998
    ensures var both := ViewInputs(Seed(t1, e1), first) + ViewInputs(Seed(t2, e2), second);
            ApplyAll([], Willing(both)) == both
  {
    LaterSeedAboveIff(t1, t2, |first|);
    var both := ViewInputs(Seed(t1, e1), first) + ViewInputs(Seed(t2, e2), second);
    IncreasingAllWritten([], both);
    assert [] + both == both;
  }

  /** With too many, some pair of seeds makes the second view's first input vanish, acknowledged. */
  lemma TooManyLosesInput(t1: nat, first: seq<string>, t2: nat, second: string)
    requires |first| > 0 && |first| >= 1000 * (t2 - t1) - 998
    ensures exists e1: nat, e2: nat :: e1 < ENTROPY_VALUES && e2 < ENTROPY_VALUES
              && Dropped(ViewInputs(Seed(t1, e1), first), Input(Seed(t2, e2), second))
  {
    LaterSeedAboveIff(t1, t2, |first|);
    var e1: nat, e2: nat :| e1 < ENTROPY_VALUES && e2 < ENTROPY_VALUES && Seed(t1, e1) + |first| - 1 >= Seed(t2, e2);
    var inputs := ViewInputs(Seed(t1, e1), first);
    IncreasingAllWritten([], inputs);
    assert [] + inputs == inputs;
    assert Dropped(inputs, Input(Seed(t2, e2), second));
  }

  /** After `before`, a willing terminal does not get `late`, yet `late` is acknowledged. */
  ghost predicate Dropped(before: seq<Input>, late: Input) {
    var log := ApplyAll([], Willing(before));
    Apply(log, Attempt(late, true, true)) == log && Acknowledged(log, Attempt(late, true, true))
  }

  /**
   * Views used at the same time: once the newer view has typed anything, all further input of the
   * older one is acknowledged and dropped, until it has caught up with the newer one's sequences.
   */
  lemma OlderViewMuted(t1: nat, e1: nat, first: seq<string>, t2: nat, e2: nat, second: seq<string>, data: string)
    requires e1 < ENTROPY_VALUES && e2 < ENTROPY_VALUES && |first| + 1 < 1000 * (t2 - t1) - 998 && second != []
    ensures Dropped(ViewInputs(Seed(t1, e1), first) + ViewInputs(Seed(t2, e2), second), Input(Seed(t1, e1) + |first|, data))
  {
    ViewsInTurn(t1, e1, first, t2, e2, second);
    LaterSeedAboveIff(t1, t2, |first| + 1);
  }
}
