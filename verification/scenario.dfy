/** Two concrete dialogs run through the Campaign model.

    The greeter says hello before any input, then hands off to a second
    adventure which receives the very reply that triggered the hand-off. The
    age asker installs a digits-only challenge together with its question;
    a non-numeric reply is rejected and the same question stays open. */
module Scenario {
  import opened Wrappers
  import opened Campaigns

  /** The states of the example adventures. */
  datatype Adv = GreeterStart | GreeterWaiting | NameAsker | AgeStart | AgeWaiting | Done

  /** The one custom challenge of the examples: digits only. */
  datatype Gate = Digits

  predicate IsNumber(s: string)
  {
    |s| > 0 && forall i :: 0 <= i < |s| ==> '0' <= s[i] <= '9'
  }

  function Verdict(g: Gate, data: Option<string>): bool
  {
    data.Some? && IsNumber(data.value)
  }

  /** The example adventures, as explicit state machines. A finished adventure
      raises when resumed, as an exhausted generator does. `NameAsker` stands
      for a generator the greeter has already started before yielding it, so
      it may be sent a value on its first resumption in this model. */
  function Resume(a: Adv, data: Option<string>): (Adv, Reply<Adv, Gate, string>)
  {
    match a
    case GreeterStart => (GreeterWaiting, Yielded(YTuple([ENone, EItem("Hello! Say your name.")])))
    case GreeterWaiting => (Done, Yielded(YGen(NameAsker)))
    case NameAsker =>
      if data.Some? then (Done, Yielded(YTuple([ENone, EItem("Nice to meet you, " + data.value + ".")])))
      else (Done, Raised("StopIteration"))
    case AgeStart => (AgeWaiting, Yielded(YTuple([EChallenge(Custom(Digits)), EItem("How old are you?")])))
    case AgeWaiting =>
      if data.Some? then (Done, Yielded(YTuple([ENone, EItem("You are " + data.value + ".")])))
      else (Done, Raised("StopIteration"))
    case Done => (Done, Raised("StopIteration"))
  }

  function World(): Env<Adv, Gate, string>
  {
    Env(Resume, Verdict)
  }

  /** The greeter primes with its hello, then the reply "Alice" is handed on
      to the name asker, which answers it in the same call. */
  lemma GreeterHandsOffTheReply()
    ensures Create(World(), GreeterStart, 0, 1)
            == Ok((Campaign(GreeterWaiting, TrueChallenge, Some(0)), [EItem("Hello! Say your name.")]))
    ensures Next(World(), Campaign(GreeterWaiting, TrueChallenge, Some(0)), Some("Alice"), 1, 1)
            == Step(Campaign(Done, TrueChallenge, Some(1)), [Done], Ok(Items([EItem("Nice to meet you, Alice.")])))
  {
    assert Step1(World(), Campaign(GreeterWaiting, TrueChallenge, Some(0)), Some("Alice"), 1)
           == HandOff(Campaign(NameAsker, TrueChallenge, Some(1)), Done);
    assert "Nice to meet you, " + "Alice" + "." == "Nice to meet you, Alice.";
  }

  /** The age question installs the digits challenge; "abc" is rejected with
      nothing but the stamp changed, and "42" is then answered. */
  lemma AgeAskerRejectsThenAccepts()
    ensures Create(World(), AgeStart, 0, 0)
            == Ok((Campaign(AgeWaiting, Custom(Digits), Some(0)), [EItem("How old are you?")]))
    ensures Next(World(), Campaign(AgeWaiting, Custom(Digits), Some(0)), Some("abc"), 1, 0)
            == Step(Campaign(AgeWaiting, Custom(Digits), Some(1)), [], Err(ChallengeFailed(Some("abc"))))
    ensures Next(World(), Campaign(AgeWaiting, Custom(Digits), Some(1)), Some("42"), 2, 0)
            == Step(Campaign(Done, Custom(Digits), Some(2)), [], Ok(Items([EItem("You are 42.")])))
  {
    assert !IsNumber("abc") by { assert !('0' <= "abc"[0] <= '9'); }
    assert IsNumber("42");
    assert "You are " + "42" + "." == "You are 42.";
  }
}
