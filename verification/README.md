# royalnet Campaign and EngineerRouter, modelled in Dafny

This project models two pieces of royalnet, a Python toolkit for chat bots.

- **The Campaign** (`royalnet/campaigns/campaign.py`) is a branching dialog state machine. A campaign holds one active *adventure* and one active *challenge*. An adventure is a generator that is resumed with each user input. A challenge is an input gate. `next(data)` works in four steps:
  1. It stamps `last_update`.
  2. It rejects data the challenge does not accept.
  3. It resumes the adventure with `send(data)`.
  4. It classifies what was yielded:
     - A generator becomes the new adventure. The old one is closed, and the same data is fed to the new adventure.
     - A challenge replaces the active one.
     - `None` returns nothing.
     - A tuple headed by a challenge or `None` returns its tail.
     - A non-empty tuple headed by any other value falls through and `next` returns `None`.
     - An empty tuple, or a value of any other shape, is an error.

  `create(start)` builds a campaign and primes it with `next(None)`.
- **The EngineerRouter** (`royalnet/engineer/router.py`) is a name-to-handler registry. `add_command` registers a handler under the given name, or under the function's own name when none is given. `call` splits the keyword arguments into pass-through ones (leading `_`) and model ones. It then looks the command up, validates the model arguments, and invokes the handler.

Files:

- `wrappers.dfy` (module `Wrappers`): `Option` and `Result`.
- `campaign.dfy` (module `Campaigns`): the campaign.
  - `Step1` is one pass through the body of `next`.
  - `Next` follows the recursive hand-off with a fuel bound.
  - `Advance` is the same call written as a loop, proved equal to `Next`.
  - `Create` models `create`.
- `router.dfy` (module `Engineer`): the registry, the keyword split and the call path.
- `scenario.dfy` (module `Scenario`): two concrete dialogs run through the model.

Modelling choices:

- **Adventures.** An adventure is an abstract state `A`. A generator's `send` is the environment function `Env.resume`, which returns the adventure's next state and a `Reply`. The reply is either a `Yield` or an exception raised out of the generator.
- **Yields.** `Yield` mirrors the Python shapes: `YGen`, `YChallenge`, `YNone`, `YTuple` and `YOther`.
- **Challenges.** A challenge is `TrueChallenge`, which accepts everything, or `Custom(g)`, whose verdict is `Env.gate`.
- **Timestamp.** `last_update` is `Option<nat>`. `None` stands for the Ellipsis placeholder set by the constructor. Each call is given its instant `now`.
- **Closed adventures.** `close()` is recorded in `Step.closed`, the adventures closed during a call, in order.
- **Errors.** The source raises exceptions. The model returns the campaign's new state together with a `Result`, because the source mutates the campaign before it raises.
- **The router call.** `Call` returns the handler and the exact keyword arguments it would be awaited with. Pydantic validation is the function parameter `validate`.

Where the code and its documentation differ, the model follows the code:

- **The error branch.** It formats `result.__class_` (a misspelling of `__class__`), so it raises `AttributeError` rather than the intended `TypeError`. Both are the abstract `InvalidYield` here.
- **Fall-through tuples.** A non-empty tuple whose head is neither a challenge nor `None` falls through both inner tests, so `next` returns `None` and changes nothing further (`NoneReturned`). `create` then fails to unpack that `None`, which the model records as `UnpackNone`.
- **Empty tuples.** An empty tuple is an error, not the same as `None`.
- **Double-underscore keywords.** The docstring of `call` says keywords starting with `__` are never passed to the function. The code passes them through like any other `_` keyword.
- **Duplicate keywords.** When a validated field and a pass-through keyword share a name, `f(**fields, **extra)` raises `TypeError` in Python. The model reports this as `DuplicateKeywords`.

## Model

| member | source | states |
|---|---|---|
| Campaigns.New | royalnet/campaigns/campaign.py:24-34 | a new campaign has the start adventure, the default accept-all challenge and no timestamp yet |
| Campaigns.FreshCampaignAcceptsAll | royalnet/campaigns/campaign.py:33 | the challenge of a new campaign accepts any input |
| Campaigns.Step1 | royalnet/campaigns/campaign.py:56-77 | one turn always stamps the call time first. A rejected input changes nothing else and resumes nothing; an accepted input never fails the gate. A turn's only errors are the gate's, the adventure's own exception, and the error branch. A hand-off happens exactly when a generator is yielded: the resumed old adventure is closed and the new one becomes active with the challenge kept. The error branch is taken exactly for an empty tuple or an unknown shape. `None` is returned exactly for a tuple headed by a plain value. A returned list is the tuple's tail. The challenge changes only to the one the yield installs, and never on an error. |
| Campaigns.Next | royalnet/campaigns/campaign.py:48-77 | a whole call, hand-offs included. The stamp is always the call time. The call fails the challenge exactly when the challenge rejects the data up front, since a hand-off never changes the challenge; a rejected call closes nothing and changes nothing but the stamp. The challenge changes only on a call that returns a list. One adventure is closed per hand-off, and the hand-off bound is reached exactly when the closed count exceeds the fuel. |
| Campaigns.Advance | royalnet/campaigns/campaign.py:59-63 | the hand-off recursion, run as a loop, gives the same state, closed adventures and outcome as the recursive call |
| Campaigns.HandOffIsTransparent | royalnet/campaigns/campaign.py:60-63 | when a generator is yielded, the call's state and outcome are those of the new adventure resumed with the same data and the unchanged challenge, after the old adventure is closed |
| Campaigns.HandOffChainIsTransparent | royalnet/campaigns/campaign.py:60-63 | after any chain of k hand-offs, the call continues exactly as a fresh call on the adventure reached, and the closed adventures are prepended in order |
| Campaigns.FuelIsMonotone | royalnet/campaigns/campaign.py:63 | a call that ends within its hand-off bound gives the same result under any larger bound, so the bound only cuts off longer chains |
| Campaigns.StampIsIrrelevant | royalnet/campaigns/campaign.py:56 | the timestamp a campaign carries has no influence on what the next call does |
| Campaigns.RetryAfterRejection | royalnet/campaigns/campaign.py:56-58 | a rejected call raises the challenge failure, and the next call behaves as if the rejected call had never happened |
| Campaigns.ChallengeOrNoneReturnsNothing | royalnet/campaigns/campaign.py:64-68 | a bare challenge becomes the active challenge and the call returns an empty list; `None` returns an empty list and keeps the challenge |
| Campaigns.TupleReturnsTail | royalnet/campaigns/campaign.py:69-75 | a tuple headed by a challenge installs it and returns the rest; a tuple headed by `None` keeps the challenge and returns the rest |
| Campaigns.EmptyTupleIsInvalid | royalnet/campaigns/campaign.py:69-77 | an empty tuple ends in the error branch, unlike `None`, and keeps the challenge |
| Campaigns.PlainHeadedTupleFallsThrough | royalnet/campaigns/campaign.py:69-75 | a tuple headed by a plain value makes the call return `None`, with the challenge kept |
| Campaigns.Create | royalnet/campaigns/campaign.py:36-46 | create drives a new campaign once with `None`. It succeeds exactly when that call returns a list, yielding the campaign and that list. An error from the call propagates, and a `None` return cannot be unpacked. The priming call never fails the challenge. |
| Scenario.GreeterHandsOffTheReply | royalnet/campaigns/campaign.py:44-77 | a concrete dialog: the greeting is produced before any input, and the reply that triggers a hand-off is answered by the new adventure in the same call |
| Scenario.AgeAskerRejectsThenAccepts | royalnet/campaigns/campaign.py:56-75 | a concrete dialog: a tuple installs a digits-only challenge. "abc" is rejected with only the stamp changed, and "42" is then answered. |
| Engineer.NewRouter | royalnet/engineer/router.py:12-13 | a new router has no commands |
| Engineer.RegisteredName | royalnet/engineer/router.py:26 | the registration name is the given name when it is a non-empty string, else the function's own name (`None` and `""` both fall back) |
| Engineer.AddCommand | royalnet/engineer/router.py:15-28 | the handler is registered under its registration name, overwriting any previous entry; no other name is added, and every other entry keeps its handler |
| Engineer.AddCommandOverwrites | royalnet/engineer/router.py:26-28 | registering a second handler under the same name leaves the router exactly as if only the second had been registered |
| Engineer.Decorate | royalnet/engineer/router.py:30-63 | the decorator returns a wrapped function that keeps the original's name, and registers it under the name add_command would pick for the original: that name is added, it maps to the wrapped function, and every other entry keeps its handler |
| Engineer.DecoratedCommandIsCallable | royalnet/engineer/router.py:53-85 | right after decorating, a call under the registration name never fails the lookup and invokes the wrapped function |
| Engineer.Split | royalnet/engineer/router.py:77-83 | every keyword lands in exactly one part with its value unchanged; it is passed through exactly when it starts with `_`, so `__`-prefixed ones are passed through too |
| Engineer.SplitMergesBack | royalnet/engineer/router.py:77-83 | merging the two parts gives back the original keyword arguments |
| Engineer.Call | royalnet/engineer/router.py:65-89 | an unregistered name fails at the lookup, and only then. A failed validation stops the call before the handler, and a validation error is reported only when validation failed. Once validation passes, the call succeeds exactly when no validated field is also a pass-through keyword, and otherwise fails with the set of duplicated keywords. A successful call invokes the registered handler with the validated fields plus every pass-through keyword unchanged. |
| Engineer.AddedCommandIsCallable | royalnet/engineer/router.py:26-85 | right after a command is added, a call under its registration name never fails the lookup and invokes exactly that handler |
| Engineer.NewRouterCallsFail | royalnet/engineer/router.py:13-85 | every call on a new router fails the lookup with the name asked for |

## Left out

- Generator mechanics are not modelled: `send`, `close`, `StopIteration`, and the rule that a just-started generator accepts only `None`. They live in the abstract `Env.resume`, which may raise. In Python, handing non-`None` data to a just-started generator raises `TypeError`. The model lets the environment produce that as `Raised` but does not force it.
- Campaigns.Next: each hand-off recurses through `return self.next(data)`, so in CPython a long enough chain ends with `RecursionError` at the interpreter's recursion limit. `HandOffLimit` plays that role, with `fuel` standing for the recursion limit; the exact depth at which CPython stops is not modelled. `FuelIsMonotone` shows that the bound changes nothing for chains that end within it.
- Campaigns.Next: `next` asks the challenge for its verdict again on every hand-off. The model assumes the verdict depends only on the challenge and the data (`Env.gate` is a function), which is why a hand-off chain can never reject data the first turn accepted. A challenge whose `filter` has side effects or reads changing state is not modelled.
- Campaigns.Next: all hand-offs within one call share the instant `now`. The source reads the clock again on each recursive call. Wall-clock time is a parameter, not a clock.
- Campaigns.Create: the returned Python tuple `(campaign, *output)` is modelled as a pair of the campaign and its output list. Extra arguments to `create` are left out. Extra keyword arguments are accepted and ignored by the constructor. Any extra positional argument makes `cls(start=start, *args, **kwargs)` bind it to `start` as well, so `create` raises `TypeError` whenever `*args` is non-empty.
- The bodies of `Challenge`, `TrueChallenge` and the exception classes are not part of this model. A challenge is known only through its verdict, and `TrueChallenge` accepts everything.
- The text of exception messages is left out, and logging is left out.
- Pydantic is not modelled: `params.signature_to_model`, `params.function_with_model`, model construction and `.dict()`. Validation is the function parameter `validate`, and the model-building wrapper of the decorator is the parameter `wrap`. Registration stores the model as `f._model` while `call` reads `f.model`. This mismatch lies inside the opaque validation and is not modelled.
- `async`/`await` is not modelled: `Call` returns the handler and its arguments instead of awaiting the handler.
- `royalnet/engineer/command.py` is not part of this model. It holds a regex-based async command pipeline (`Command.run`, `PartialCommand`).
