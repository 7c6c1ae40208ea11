/** `CompareWithPrevious` of `pipeliner/steps/compare_with_previous.py`: a step that
    remembers the last payload it received and forwards each payload to its original
    successor (when nothing is remembered), to its `when_same` step (when the payload
    equals the remembered one) or to its `when_different` step (otherwise). Its branch
    steps are given to the constructor rather than built by a factory. */
module Compare {
  import opened Steps

  /** Where one call forwards its payload. */
  datatype Branch = ToSuccessor | ToSame | ToDifferent

  /** The routing rule of `perform`, given the remembered payload. */
  function Route(remembered: Payload, data: Payload): (b: Branch)
    ensures b == ToSuccessor <==> remembered == Null
    ensures b == ToSame <==> remembered != Null && remembered == data
    ensures b == ToDifferent <==> remembered != Null && remembered != data
  {
    if remembered == Null then ToSuccessor
    else if remembered != data then ToDifferent
    else ToSame
  }

  /** The branches a run of calls takes, starting from a remembered payload: each call
      compares its payload with the one before it. */
  function Routes(remembered: Payload, inputs: seq<Payload>): (bs: seq<Branch>)
    ensures |bs| == |inputs|
    decreases |inputs|
  {
    if inputs == [] then []
    else [Route(remembered, inputs[0])] + Routes(inputs[0], inputs[1..])
  }

  /** The payloads of `inputs` that a run of calls forwards to branch `b`. */
  function ForwardedTo(b: Branch, remembered: Payload, inputs: seq<Payload>): (out: seq<Payload>)
    ensures |out| <= |inputs|
    decreases |inputs|
  {
    if inputs == [] then []
    else
      (if Route(remembered, inputs[0]) == b then [inputs[0]] else [])
      + ForwardedTo(b, inputs[0], inputs[1..])
  }

  /** Call `i` of a run compares payload `i` with payload `i - 1`, the first with what
      was remembered before the run. */
  lemma {:induction false} RoutesCompareWithPrevious(remembered: Payload, inputs: seq<Payload>, i: nat)
    requires i < |inputs|
    ensures Routes(remembered, inputs)[i] == Route(if i == 0 then remembered else inputs[i - 1], inputs[i])
    decreases |inputs|
  {
    if i > 0 {
      RoutesCompareWithPrevious(inputs[0], inputs[1..], i - 1);
      assert inputs[1..][i - 1] == inputs[i];
      if i > 1 { assert inputs[1..][i - 2] == inputs[i - 1]; }
    }
  }

  /** The payloads at the positions where a sequence of branches is `b`, in order. */
  function Pick<T>(inputs: seq<T>, bs: seq<Branch>, b: Branch): (out: seq<T>)
    requires |inputs| == |bs|
    ensures |out| <= |inputs|
    decreases |inputs|
  {
    if inputs == [] then []
    else (if bs[0] == b then [inputs[0]] else []) + Pick(inputs[1..], bs[1..], b)
  }

  /** The payloads forwarded to a branch are those at the calls whose route is that
      branch, in the order of the run. */
  lemma {:induction false} ForwardedToRoutes(b: Branch, remembered: Payload, inputs: seq<Payload>)
    ensures ForwardedTo(b, remembered, inputs) == Pick(inputs, Routes(remembered, inputs), b)
    decreases |inputs|
  {
    if inputs != [] {
      ForwardedToRoutes(b, inputs[0], inputs[1..]);
      assert Routes(remembered, inputs)[1..] == Routes(inputs[0], inputs[1..]);
    }
  }

  lemma ForwardedToRoutesAll(remembered: Payload, inputs: seq<Payload>)
    ensures forall b :: ForwardedTo(b, remembered, inputs) == Pick(inputs, Routes(remembered, inputs), b)
  {
    forall b: Branch ensures ForwardedTo(b, remembered, inputs) == Pick(inputs, Routes(remembered, inputs), b) {
      ForwardedToRoutes(b, remembered, inputs);
    }
  }

  // Adding one payload to one of three parts adds it to their sum.
  lemma AddToOne<T>(x: T, first: Branch, a: multiset<T>, b: multiset<T>, c: multiset<T>,
                    a': multiset<T>, b': multiset<T>, c': multiset<T>)
    requires a' == (if first == ToSuccessor then multiset{x} + a else a)
    requires b' == (if first == ToSame then multiset{x} + b else b)
    requires c' == (if first == ToDifferent then multiset{x} + c else c)
    ensures a' + b' + c' == multiset{x} + (a + b + c)
  {
  }

  lemma MultisetCons<T>(s: seq<T>)
    requires s != []
    ensures multiset(s) == multiset{s[0]} + multiset(s[1..])
  {
    assert s == [s[0]] + s[1..];
  }

  lemma PickCons<T>(inputs: seq<T>, bs: seq<Branch>, b: Branch)
    requires |inputs| == |bs| && inputs != []
    ensures multiset(Pick(inputs, bs, b))
            == if bs[0] == b then multiset{inputs[0]} + multiset(Pick(inputs[1..], bs[1..], b))
               else multiset(Pick(inputs[1..], bs[1..], b))
  {
    if bs[0] == b {
      assert Pick(inputs, bs, b) == [inputs[0]] + Pick(inputs[1..], bs[1..], b);
    }
  }

  /** Picking each of the three branches from one sequence of branches splits the
      payloads among them. */
  lemma {:induction false} PickPartition<T>(inputs: seq<T>, bs: seq<Branch>)
    requires |inputs| == |bs|
    ensures multiset(Pick(inputs, bs, ToSuccessor)) + multiset(Pick(inputs, bs, ToSame))
            + multiset(Pick(inputs, bs, ToDifferent)) == multiset(inputs)
    decreases |inputs|
  {
    if inputs != [] {
      var x, rest, cs := inputs[0], inputs[1..], bs[1..];
      PickPartition(rest, cs);
      PickCons(inputs, bs, ToSuccessor);
      PickCons(inputs, bs, ToSame);
      PickCons(inputs, bs, ToDifferent);
      var a, b, c := multiset(Pick(rest, cs, ToSuccessor)), multiset(Pick(rest, cs, ToSame)), multiset(Pick(rest, cs, ToDifferent));
      MultisetCons(inputs);
      AddToOne(x, bs[0], a, b, c, multiset(Pick(inputs, bs, ToSuccessor)),
               multiset(Pick(inputs, bs, ToSame)), multiset(Pick(inputs, bs, ToDifferent)));
    }
  }

  /** Every payload of a run goes to exactly one of the three branches: together they
      receive the run's payloads, each as often as it occurs. */
  lemma ForwardedPartition(remembered: Payload, inputs: seq<Payload>)
    ensures multiset(ForwardedTo(ToSuccessor, remembered, inputs)) + multiset(ForwardedTo(ToSame, remembered, inputs))
            + multiset(ForwardedTo(ToDifferent, remembered, inputs)) == multiset(inputs)
  {
    ForwardedToRoutesAll(remembered, inputs);
    PickPartition(inputs, Routes(remembered, inputs));
  }

  /** Once a payload other than `None` is remembered, no later call goes to the original
      successor unless it follows a `None` payload. */
  lemma {:induction false} SuccessorOnlyAfterNone(remembered: Payload, inputs: seq<Payload>, i: nat)
    requires i < |inputs| && Routes(remembered, inputs)[i] == ToSuccessor
    ensures if i == 0 then remembered == Null else inputs[i - 1] == Null
  {
    RoutesCompareWithPrevious(remembered, inputs, i);
  }

  class CompareWithPrevious {
    var oldValue: Payload
    var oldNextStep: Step?
    var nextStep: Step?
    const whenSame: Step
    const whenDifferent: Step

    constructor (whenSame: Step, whenDifferent: Step)
      ensures oldValue == Null && oldNextStep == null && nextStep == null
      ensures this.whenSame == whenSame && this.whenDifferent == whenDifferent
    {
      oldValue := Null;
      oldNextStep := null;
      nextStep := null;
      this.whenSame := whenSame;
      this.whenDifferent := whenDifferent;
    }

    /** The step a branch forwards to. */
    function Receiver(b: Branch): (s: Step?)
      reads this
    {
      match b
      case ToSuccessor => oldNextStep
      case ToSame => whenSame
      case ToDifferent => whenDifferent
    }

    /** `set_next_step`: records the successor as the original one and chains both
        branch steps to it. */
    method SetNextStep(step: Step?)
      modifies this, whenSame, whenDifferent
      ensures nextStep == step && oldNextStep == step
      ensures whenSame.next == step && whenDifferent.next == step
      ensures oldValue == old(oldValue)
    {
      nextStep := step;
      oldNextStep := nextStep;
      whenSame.SetNextStep(nextStep);
      whenDifferent.SetNextStep(nextStep);
    }

    /** `perform`: choose the successor by comparing with the remembered payload,
        remember the payload, and forward it to the chosen successor, whose identity is
        returned. */
    method Perform(data: Payload) returns (branch: Branch, receiver: Step?)
      modifies this
      ensures branch == Route(old(oldValue), data)
      ensures receiver == Receiver(branch) && nextStep == receiver
      ensures oldValue == data && oldNextStep == old(oldNextStep)
    {
      if oldValue == Null {
        nextStep := oldNextStep;
        branch := ToSuccessor;
      } else if oldValue != data {
        nextStep := whenDifferent;
        branch := ToDifferent;
      } else {
        nextStep := whenSame;
        branch := ToSame;
      }
      oldValue := data;
      receiver := nextStep;
    }

    /** A run of calls: the branches are those of `Routes` and afterwards the last
        payload is remembered. */
    method PerformAll(inputs: seq<Payload>) returns (branches: seq<Branch>)
      modifies this
      ensures branches == Routes(old(oldValue), inputs)
      ensures inputs != [] ==> oldValue == inputs[|inputs| - 1]
      ensures inputs == [] ==> oldValue == old(oldValue)
      ensures oldNextStep == old(oldNextStep)
      ensures forall b :: ForwardedTo(b, old(oldValue), inputs) == Pick(inputs, branches, b)
    {
      branches := [];
      var i := 0;
      ghost var start := oldValue;
      while i < |inputs|
        invariant 0 <= i <= |inputs| && oldNextStep == old(oldNextStep)
        invariant oldValue == if i == 0 then start else inputs[i - 1]
        invariant Routes(start, inputs) == branches + Routes(oldValue, inputs[i..])
      {
        assert inputs[i..][1..] == inputs[i + 1..];
        var b, _ := Perform(inputs[i]);
        branches := branches + [b];
        i := i + 1;
      }
      assert inputs[i..] == [];
      ForwardedToRoutesAll(start, inputs);
    }
  }

  // The run of `test_compare_with_previous`: the same payload three times, then two
  // different ones.
  const Hello := Text("Hello test!")
  const Different := Text("Hello different!")
  const DifferentAgain := Text("Hello different again!")
  const TestInputs := [Hello, Hello, Hello, Different, DifferentAgain]

  // The payloads of the test are pairwise different texts.
  lemma TestPayloadsDiffer()
    ensures Hello != Different && Different != DifferentAgain && Hello != DifferentAgain
  {
    assert |Hello.text| == 11 && |Different.text| == 16 && |DifferentAgain.text| == 22;
  }

  lemma RoutesExample()
    ensures Routes(Null, TestInputs) == [ToSuccessor, ToSame, ToSame, ToDifferent, ToDifferent]
  {
    TestPayloadsDiffer();
    var t1 := [Hello, Hello, Different, DifferentAgain];
    var t2 := [Hello, Different, DifferentAgain];
    var t3 := [Different, DifferentAgain];
    var t4 := [DifferentAgain];
    assert TestInputs[1..] == t1 && t1[1..] == t2 && t2[1..] == t3 && t3[1..] == t4 && t4[1..] == [];
    assert Routes(Different, t4) == [ToDifferent];
    assert Routes(Hello, t3) == [ToDifferent, ToDifferent];
    assert Routes(Hello, t2) == [ToSame, ToDifferent, ToDifferent];
    assert Routes(Hello, t1) == [ToSame, ToSame, ToDifferent, ToDifferent];
  }

  lemma ForwardedToSameExample()
    ensures ForwardedTo(ToSame, Null, TestInputs) == [Hello, Hello]
  {
    TestPayloadsDiffer();
    var t1 := [Hello, Hello, Different, DifferentAgain];
    var t2 := [Hello, Different, DifferentAgain];
    var t3 := [Different, DifferentAgain];
    var t4 := [DifferentAgain];
    assert TestInputs[1..] == t1 && t1[1..] == t2 && t2[1..] == t3 && t3[1..] == t4 && t4[1..] == [];
    assert ForwardedTo(ToSame, Different, t4) == [];
    assert ForwardedTo(ToSame, Hello, t3) == [];
    assert ForwardedTo(ToSame, Hello, t2) == [Hello];
    assert ForwardedTo(ToSame, Hello, t1) == [Hello, Hello];
  }

  lemma ForwardedToDifferentExample()
    ensures ForwardedTo(ToDifferent, Null, TestInputs) == [Different, DifferentAgain]
  {
    TestPayloadsDiffer();
    var t1 := [Hello, Hello, Different, DifferentAgain];
    var t2 := [Hello, Different, DifferentAgain];
    var t3 := [Different, DifferentAgain];
    var t4 := [DifferentAgain];
    assert TestInputs[1..] == t1 && t1[1..] == t2 && t2[1..] == t3 && t3[1..] == t4 && t4[1..] == [];
    assert ForwardedTo(ToDifferent, Different, t4) == [DifferentAgain];
    assert ForwardedTo(ToDifferent, Hello, t3) == [Different, DifferentAgain];
    assert ForwardedTo(ToDifferent, Hello, t2) == [Different, DifferentAgain];
    assert ForwardedTo(ToDifferent, Hello, t1) == [Different, DifferentAgain];
  }

  /** `test_compare_with_previous`: the first payload goes to the original successor, the
      two repeats to the same branch, the two changes to the different branch. */
  lemma CompareExample()
    ensures Routes(Null, TestInputs) == [ToSuccessor, ToSame, ToSame, ToDifferent, ToDifferent]
    ensures ForwardedTo(ToSame, Null, TestInputs) == [Hello, Hello]
    ensures ForwardedTo(ToDifferent, Null, TestInputs) == [Different, DifferentAgain]
  {
    RoutesExample();
    ForwardedToSameExample();
    ForwardedToDifferentExample();
  }

  /** The test itself: a fresh step with two fresh branch steps, called five times. */
  method CompareScenario() returns (branches: seq<Branch>)
    ensures branches == [ToSuccessor, ToSame, ToSame, ToDifferent, ToDifferent]
  {
    var same := new Step(StepClass("DoNothing", false), map[]);
    var different := new Step(StepClass("ProduceText", false), map["text" := "Hello test!"]);
    var step := new CompareWithPrevious(same, different);
    branches := step.PerformAll(TestInputs);
    CompareExample();
  }
}
