/** A model of royalnet's Campaign: a dialog driven by a chain of resumable
    adventures, each turn gated by the active challenge.

    An adventure is an abstract state `A`; resuming it with a piece of data is the
    environment function `resume`, which returns the adventure's next state and
    what it produced (a yield, or an exception it raised). A challenge is either
    the built-in accept-all `TrueChallenge` or a user gate `Custom(g)`, whose
    verdict on a piece of data is the environment function `gate`. */
module Campaigns {
  import opened Wrappers

  /** The input gate of a campaign. `TrueChallenge` is the default one and
      accepts every input. */
  datatype Challenge<C> = TrueChallenge | Custom(gate: C)

  /** One element of a tuple yielded by an adventure: a challenge, `None`, or
      any other value. */
  datatype Elem<C, V> = EChallenge(c: Challenge<C>) | ENone | EItem(v: V)

  /** The value an adventure yields, with the shapes the campaign tells apart:
      a generator (the next adventure), a challenge, `None`, a tuple, or
      anything else. */
  datatype Yield<A, C, V> =
    | YGen(adv: A)
    | YChallenge(c: Challenge<C>)
    | YNone
    | YTuple(elems: seq<Elem<C, V>>)
    | YOther(v: V)

  /** What one resumption of an adventure produces: a yielded value, or an
      exception raised out of the adventure (including the end of the
      generator). */
  datatype Reply<A, C, V> = Yielded(y: Yield<A, C, V>) | Raised(exc: V)

  /** The collaborators the campaign calls into: resuming an adventure with a
      piece of data (`None` is `Wrappers.None`), and the verdict of a custom
      challenge on a piece of data. */
  datatype Env<!A, !C, !V> = Env(
    resume: (A, Option<V>) -> (A, Reply<A, C, V>),
    gate: (C, Option<V>) -> bool)

  /** The campaign's state. `lastUpdate` is `None` until the first call to
      `Next`, then the instant of the most recent call. */
  datatype Campaign<A, C> = Campaign(adventure: A, challenge: Challenge<C>, lastUpdate: Option<nat>)

  /** What a call to `Next` returns when it does not raise: a list of output
      elements, or `None` (the fall-through of a tuple whose head is neither a
      challenge nor `None`). */
  datatype Returned<C, V> = Items(items: seq<Elem<C, V>>) | NoneReturned

  /** The errors a call can end with. `InvalidYield` is the error branch for
      shapes the campaign does not accept; `HandOffLimit` is the model's bound
      on the hand-off chain; `UnpackNone` is raised by `Create` when the first
      call returned `None`. */
  datatype Error<V> =
    | ChallengeFailed(data: Option<V>)
    | AdventureRaised(exc: V)
    | InvalidYield
    | HandOffLimit
    | UnpackNone

  /** The result of one turn: either the adventure handed off to a new one
      (which is now active; `superseded` is the closed one), or the call is
      finished with an outcome. */
  datatype Turn<A, C, V> =
    | HandOff(campaign: Campaign<A, C>, superseded: A)
    | Finished(campaign: Campaign<A, C>, outcome: Result<Returned<C, V>, Error<V>>)

  /** The result of a whole call to `Next`: the campaign afterwards, the
      adventures closed during the call in order, and the outcome. The state is
      returned on failure too, since the source mutates the campaign in place. */
  datatype Step<A, C, V> = Step(campaign: Campaign<A, C>, closed: seq<A>, outcome: Result<Returned<C, V>, Error<V>>)

  /** The verdict of a challenge on a piece of data. */
  predicate Accepts<A, C, V>(env: Env<A, C, V>, ch: Challenge<C>, data: Option<V>)
  {
    match ch
    case TrueChallenge => true
    case Custom(g) => env.gate(g, data)
  }

  /** The state the active adventure is in after being resumed with `data`. */
  function Resumed<A, C, V>(env: Env<A, C, V>, cam: Campaign<A, C>, data: Option<V>): A
  {
    env.resume(cam.adventure, data).0
  }

  /** What the active adventure produces when resumed with `data`. */
  function ReplyOf<A, C, V>(env: Env<A, C, V>, cam: Campaign<A, C>, data: Option<V>): Reply<A, C, V>
  {
    env.resume(cam.adventure, data).1
  }

  /** The challenge a yielded value installs, if any: a bare challenge, or the
      head of a tuple. */
  function InstalledChallenge<A, C, V>(y: Yield<A, C, V>): Option<Challenge<C>>
  {
    match y
    case YChallenge(c) => Some(c)
    case YTuple(es) => if |es| > 0 && es[0].EChallenge? then Some(es[0].c) else None
    case _ => None
  }

  /** The output a yielded value carries: the tail of a tuple, nothing otherwise. */
  function Payload<A, C, V>(y: Yield<A, C, V>): seq<Elem<C, V>>
  {
    if y.YTuple? && |y.elems| > 0 then y.elems[1..] else []
  }

  /** The shapes that end in the error branch: an empty tuple, or a value that
      is not a generator, challenge, `None` or tuple. */
  predicate IsInvalidShape<A, C, V>(y: Yield<A, C, V>)
  {
    y.YOther? || (y.YTuple? && |y.elems| == 0)
  }

  /** A freshly constructed campaign. */
  function New<A, C>(start: A): (cam: Campaign<A, C>)
    ensures cam.adventure == start
    ensures cam.challenge == TrueChallenge
    ensures cam.lastUpdate == None
  {
    Campaign(start, TrueChallenge, None)
  }

  /** One pass through the body of `next`: stamp, gate, resume, classify. */
  function Step1<A, C, V>(env: Env<A, C, V>, cam: Campaign<A, C>, data: Option<V>, now: nat): (t: Turn<A, C, V>)
    // the stamp is written on every path, before the gate
    ensures t.campaign.lastUpdate == Some(now)
    // a rejected input touches nothing but the stamp, and resumes nothing
    ensures !Accepts(env, cam.challenge, data) ==>
              t == Finished(cam.(lastUpdate := Some(now)), Err(ChallengeFailed(data)))
    // an accepted input always resumes the adventure
    ensures Accepts(env, cam.challenge, data) && t.Finished? ==> t.campaign.adventure == Resumed(env, cam, data)
    // an accepted input never fails the gate, and a turn ends in no error but
    // the gate's, the adventure's own exception, or the error branch
    ensures Accepts(env, cam.challenge, data) ==> !(t.Finished? && t.outcome.Err? && t.outcome.error.ChallengeFailed?)
    ensures t.Finished? && t.outcome.Err? ==>
              t.outcome.error.ChallengeFailed? || t.outcome.error.AdventureRaised? || t.outcome.error == InvalidYield
    // a hand-off happens exactly when the adventure yields a generator; the old one is closed
    ensures t.HandOff? <==> Accepts(env, cam.challenge, data) && ReplyOf(env, cam, data).Yielded? && ReplyOf(env, cam, data).y.YGen?
    ensures t.HandOff? ==>
              && t.superseded == Resumed(env, cam, data)
              && t.campaign == cam.(adventure := ReplyOf(env, cam, data).y.adv, lastUpdate := Some(now))
    // an exception from the adventure propagates
    ensures t.Finished? && t.outcome.Err? && t.outcome.error.AdventureRaised? <==>
              Accepts(env, cam.challenge, data) && ReplyOf(env, cam, data).Raised?
    ensures Accepts(env, cam.challenge, data) && ReplyOf(env, cam, data).Raised? ==>
              t.outcome == Err(AdventureRaised(ReplyOf(env, cam, data).exc))
    // an empty tuple and unknown shapes end in the error branch
    ensures t.Finished? && t.outcome == Err(InvalidYield) <==>
              Accepts(env, cam.challenge, data) && ReplyOf(env, cam, data).Yielded? && IsInvalidShape(ReplyOf(env, cam, data).y)
    // a tuple headed by a plain value falls through and returns None
    ensures t.Finished? && t.outcome == Ok(NoneReturned) <==>
              && Accepts(env, cam.challenge, data)
              && ReplyOf(env, cam, data).Yielded?
              && var y := ReplyOf(env, cam, data).y;
              y.YTuple? && |y.elems| > 0 && y.elems[0].EItem?
    // a returned list is the tail of the tuple, or empty
    ensures t.Finished? && t.outcome.Ok? && t.outcome.value.Items? ==>
              t.outcome.value.items == Payload(ReplyOf(env, cam, data).y)
    // the challenge changes only to the one a successful yield installs
    ensures t.Finished? && t.outcome.Ok? ==>
              t.campaign.challenge == InstalledChallenge(ReplyOf(env, cam, data).y).GetOr(cam.challenge)
    ensures !(t.Finished? && t.outcome.Ok?) ==> t.campaign.challenge == cam.challenge
  {
    var stamped := cam.(lastUpdate := Some(now));
    if !Accepts(env, cam.challenge, data) then
      Finished(stamped, Err(ChallengeFailed(data)))
    else
      var (after, reply) := env.resume(cam.adventure, data);
      var resumed := stamped.(adventure := after);
      match reply
      case Raised(e) => Finished(resumed, Err(AdventureRaised(e)))
      case Yielded(y) =>
        match y
        case YGen(b) => HandOff(resumed.(adventure := b), after)
        case YChallenge(c) => Finished(resumed.(challenge := c), Ok(Items([])))
        case YNone => Finished(resumed, Ok(Items([])))
        case YTuple(es) =>
          if |es| == 0 then Finished(resumed, Err(InvalidYield))
          else (
            match es[0]
            case EChallenge(c) => Finished(resumed.(challenge := c), Ok(Items(es[1..])))
            case ENone => Finished(resumed, Ok(Items(es[1..])))
            case EItem(_) => Finished(resumed, Ok(NoneReturned)))
        case YOther(_) => Finished(resumed, Err(InvalidYield))
  }

  /** `next(data)`: runs turns until one does not hand off. Each hand-off
      re-runs the same data against the new adventure; at most `fuel`
      hand-offs are followed before `HandOffLimit`. */
  function Next<A, C, V>(env: Env<A, C, V>, cam: Campaign<A, C>, data: Option<V>, now: nat, fuel: nat): (s: Step<A, C, V>)
    decreases fuel
    ensures s.campaign.lastUpdate == Some(now)
    // the gate rejects the call exactly when it rejects the data up front:
    // the hand-off chain never changes the challenge, so it never rejects later
    ensures s.outcome == Err(ChallengeFailed(data)) <==> !Accepts(env, cam.challenge, data)
    ensures !Accepts(env, cam.challenge, data) ==> s.campaign == cam.(lastUpdate := Some(now)) && s.closed == []
    // the challenge changes only on a call that returns a list
    ensures s.campaign.challenge != cam.challenge ==> s.outcome.Ok? && s.outcome.value.Items?
    // one adventure is closed per hand-off, and the bound is hit exactly when fuel runs out
    ensures |s.closed| <= fuel + 1
    ensures s.outcome == Err(HandOffLimit) <==> |s.closed| == fuel + 1
  {
    match Step1(env, cam, data, now)
    case Finished(c, o) => Step(c, [], o)
    case HandOff(c, prev) =>
      if fuel == 0 then Step(c, [prev], Err(HandOffLimit))
      else
        var rest := Next(env, c, data, now, fuel - 1);
        Step(rest.campaign, [prev] + rest.closed, rest.outcome)
  }

  /** The same call as `Next`, with the hand-off recursion turned into a loop. */
  method Advance<A, C, V>(env: Env<A, C, V>, cam: Campaign<A, C>, data: Option<V>, now: nat, fuel: nat) returns (s: Step<A, C, V>)
    ensures s == Next(env, cam, data, now, fuel)
  {
    var cur := cam;
    var closed: seq<A> := [];
    var left: nat := fuel;
    while true
      invariant left <= fuel
      invariant var rest := Next(env, cur, data, now, left);
                Next(env, cam, data, now, fuel) == Step(rest.campaign, closed + rest.closed, rest.outcome)
      decreases left
    {
      match Step1(env, cur, data, now)
      case Finished(c, o) =>
        return Step(c, closed, o);
      case HandOff(c, prev) =>
        closed := closed + [prev];
        if left == 0 {
          return Step(c, closed, Err(HandOffLimit));
        }
        cur := c;
        left := left - 1;
    }
  }

  /** The campaign, the adventures closed and the accumulated closed list
      after following exactly `k` hand-offs from `cam`; `None` when a turn
      before that does not hand off. */
  ghost function HandOffs<A, C, V>(env: Env<A, C, V>, cam: Campaign<A, C>, data: Option<V>, now: nat, k: nat): Option<(Campaign<A, C>, seq<A>)>
    decreases k
  {
    if k == 0 then Some((cam, []))
    else
      match Step1(env, cam, data, now)
      case Finished(_, _) => None
      case HandOff(c, prev) =>
        match HandOffs(env, c, data, now, k - 1)
        case None => None
        case Some(p) => Some((p.0, [prev] + p.1))
  }

  /** A hand-off is transparent: the call's state and outcome are those of the
      new adventure's first resumption with the same data. */
  lemma HandOffIsTransparent<A, C, V>(env: Env<A, C, V>, cam: Campaign<A, C>, data: Option<V>, now: nat, fuel: nat, b: A)
    requires Accepts(env, cam.challenge, data)
    requires ReplyOf(env, cam, data) == Yielded(YGen(b))
    ensures var rest := Next(env, Campaign(b, cam.challenge, Some(now)), data, now, fuel);
            Next(env, cam, data, now, fuel + 1) == Step(rest.campaign, [Resumed(env, cam, data)] + rest.closed, rest.outcome)
  {
  }

  /** Hand-off transparency for a whole chain: after `k` hand-offs the call
      continues exactly as a call on the adventure reached. */
  lemma {:induction false} HandOffChainIsTransparent<A, C, V>(
    env: Env<A, C, V>, cam: Campaign<A, C>, data: Option<V>, now: nat, fuel: nat, k: nat, reached: Campaign<A, C>, closed: seq<A>)
    requires k <= fuel
    requires HandOffs(env, cam, data, now, k) == Some((reached, closed))
    ensures var rest := Next(env, reached, data, now, fuel - k);
            Next(env, cam, data, now, fuel) == Step(rest.campaign, closed + rest.closed, rest.outcome)
    decreases k
  {
    if k > 0 {
      match Step1(env, cam, data, now)
      case HandOff(c, prev) =>
        var p := HandOffs(env, c, data, now, k - 1).value;
        HandOffChainIsTransparent(env, c, data, now, fuel - 1, k - 1, p.0, p.1);
    }
  }

  /** A call that finished within its fuel gives the same result with any
      larger fuel: the bound only cuts off chains longer than itself. */
  lemma {:induction false} FuelIsMonotone<A, C, V>(env: Env<A, C, V>, cam: Campaign<A, C>, data: Option<V>, now: nat, fuel: nat, more: nat)
    requires fuel <= more
    requires Next(env, cam, data, now, fuel).outcome != Err(HandOffLimit)
    ensures Next(env, cam, data, now, more) == Next(env, cam, data, now, fuel)
    decreases fuel
  {
    match Step1(env, cam, data, now)
    case Finished(_, _) =>
    case HandOff(c, prev) =>
      FuelIsMonotone(env, c, data, now, fuel - 1, more - 1);
  }

  /** The stamp a campaign carries has no influence on the next call. */
  lemma StampIsIrrelevant<A, C, V>(env: Env<A, C, V>, cam: Campaign<A, C>, stamp: Option<nat>, data: Option<V>, now: nat, fuel: nat)
    ensures Next(env, cam.(lastUpdate := stamp), data, now, fuel) == Next(env, cam, data, now, fuel)
  {
  }

  /** A rejected call can be retried: the next call behaves as if the rejected
      one had never happened. */
  lemma RetryAfterRejection<A, C, V>(env: Env<A, C, V>, cam: Campaign<A, C>, bad: Option<V>, good: Option<V>, t1: nat, t2: nat, f1: nat, f2: nat)
    requires !Accepts(env, cam.challenge, bad)
    ensures Next(env, cam, bad, t1, f1).outcome == Err(ChallengeFailed(bad))
    ensures Next(env, Next(env, cam, bad, t1, f1).campaign, good, t2, f2) == Next(env, cam, good, t2, f2)
  {
    StampIsIrrelevant(env, cam, Some(t1), good, t2, f2);
  }

  /** A bare challenge replaces the active one and returns an empty list; `None`
      returns an empty list and keeps it. */
  lemma ChallengeOrNoneReturnsNothing<A, C, V>(env: Env<A, C, V>, cam: Campaign<A, C>, data: Option<V>, now: nat, fuel: nat)
    requires Accepts(env, cam.challenge, data)
    requires ReplyOf(env, cam, data).Yielded?
    requires ReplyOf(env, cam, data).y.YChallenge? || ReplyOf(env, cam, data).y.YNone?
    ensures var s := Next(env, cam, data, now, fuel);
            && s.outcome == Ok(Items([]))
            && s.campaign.adventure == Resumed(env, cam, data)
            && s.campaign.challenge == (if ReplyOf(env, cam, data).y.YChallenge? then ReplyOf(env, cam, data).y.c else cam.challenge)
  {
  }

  /** A tuple headed by a challenge installs it and returns the rest; headed by
      `None` it keeps the challenge and returns the rest. */
  lemma TupleReturnsTail<A, C, V>(env: Env<A, C, V>, cam: Campaign<A, C>, data: Option<V>, now: nat, fuel: nat, es: seq<Elem<C, V>>)
    requires Accepts(env, cam.challenge, data)
    requires ReplyOf(env, cam, data) == Yielded(YTuple(es))
    requires |es| > 0 && !es[0].EItem?
    ensures var s := Next(env, cam, data, now, fuel);
            && s.outcome == Ok(Items(es[1..]))
            && s.campaign.challenge == (if es[0].EChallenge? then es[0].c else cam.challenge)
  {
  }

  /** An empty tuple is not `None`: it ends in the error branch, while `None`
      returns an empty list. */
  lemma EmptyTupleIsInvalid<A, C, V>(env: Env<A, C, V>, cam: Campaign<A, C>, data: Option<V>, now: nat, fuel: nat)
    requires Accepts(env, cam.challenge, data)
    requires ReplyOf(env, cam, data) == Yielded(YTuple([]))
    ensures Next(env, cam, data, now, fuel).outcome == Err(InvalidYield)
    ensures Next(env, cam, data, now, fuel).campaign.challenge == cam.challenge
  {
  }

  /** A tuple headed by a plain value falls through both tests: the call
      returns `None` and the challenge is kept. */
  lemma PlainHeadedTupleFallsThrough<A, C, V>(env: Env<A, C, V>, cam: Campaign<A, C>, data: Option<V>, now: nat, fuel: nat, es: seq<Elem<C, V>>)
    requires Accepts(env, cam.challenge, data)
    requires ReplyOf(env, cam, data) == Yielded(YTuple(es))
    requires |es| > 0 && es[0].EItem?
    ensures Next(env, cam, data, now, fuel).outcome == Ok(NoneReturned)
    ensures Next(env, cam, data, now, fuel).campaign.challenge == cam.challenge
  {
  }

  /** `create(start)`: a new campaign driven once with `None`. It yields the
      campaign and that call's list; a call that returned `None` cannot be
      unpacked, and an error propagates (the campaign is then lost). */
  function Create<A, C, V>(env: Env<A, C, V>, start: A, now: nat, fuel: nat): (r: Result<(Campaign<A, C>, seq<Elem<C, V>>), Error<V>>)
    ensures var s := Next(env, New(start), None, now, fuel);
            && (r.Ok? <==> s.outcome.Ok? && s.outcome.value.Items?)
            && (r.Ok? ==> r.value == (s.campaign, s.outcome.value.items))
            && (s.outcome.Err? ==> r == Err(s.outcome.error))
            && (s.outcome == Ok(NoneReturned) ==> r == Err(UnpackNone))
    // the default challenge accepts the priming call, so it never fails the gate
    ensures r != Err(ChallengeFailed(None))
  {
    var s := Next(env, New(start), None, now, fuel);
    match s.outcome
    case Err(e) => Err(e)
    case Ok(NoneReturned) => Err(UnpackNone)
    case Ok(Items(out)) => Ok((s.campaign, out))
  }

  /** Every input passes the challenge of a fresh campaign. */
  lemma FreshCampaignAcceptsAll<A, C, V>(env: Env<A, C, V>, start: A, data: Option<V>)
    ensures Accepts(env, New<A, C>(start).challenge, data)
  {
  }
}
