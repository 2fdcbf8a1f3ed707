/** The /ask handler as a state transition over the memory store: the
    channel gate, seeding, the user turn, the completion outcome (an input
    here), the guard, the assistant turn and the trim. */
module Ask {
  import opened Turns
  import opened Text
  import opened Guard
  import opened Store
  import opened UserId

  /** The handler's two constants: the one channel it answers in, and
      `MAX_MEMORY_MESSAGES`, the rolling window past the system turns. */
  datatype Config = Config(allowedChannel: int, maxMemory: nat)

  const Deployed: Config := Config(1456617189762138273, 8)

  /** What the completion call gave back: the message content, or an
      exception raised while obtaining it. */
  datatype Completion = Completed(content: string) | Raised

  /** What the handler sends back to the user. */
  datatype Response = WrongChannel | Answer(text: string) | Failure

  function Message(r: Response): string {
    match r
    case WrongChannel => "I only respond in the designated channel."
    case Answer(text) => text
    case Failure => "An error occurred while processing your request."
  }

  datatype Outcome = Outcome(memory: Memory, response: Response)

  /** The store key of a user: `str(interaction.user.id)`. */
  function Key(user: nat): string {
    Decimal(user)
  }

  /** The memory after the question is recorded, before the completion call. */
  function Asked(m: Memory, user: nat, question: string): (r: Memory)
    ensures Key(user) in r
  {
    var key := Key(user);
    Append(Init(m, key), key, Turn(User, question))
  }

  /** The messages handed to the completion call: the user's history, seeded
      if new, ending in the question. */
  function Prompt(m: Memory, user: nat, question: string): (p: History)
    ensures |p| == |Current(m, Key(user))| + 1
    ensures p[..|p| - 1] == Current(m, Key(user))
    ensures p[|p| - 1] == Turn(User, question)
  {
    Asked(m, user, question)[Key(user)]
  }

  /** One /ask request. A request outside the allowed channel changes
      nothing; otherwise only the asking user's entry may change. */
  function Step(cfg: Config, m: Memory, channel: int, user: nat, question: string,
                completion: Completion): (o: Outcome)
    ensures channel != cfg.allowedChannel ==> o.memory == m && o.response == WrongChannel
    ensures channel == cfg.allowedChannel ==> o.memory.Keys == m.Keys + {Key(user)}
    ensures forall k :: k in m && k != Key(user) ==> k in o.memory && o.memory[k] == m[k]
  {
    if channel != cfg.allowedChannel then Outcome(m, WrongChannel)
    else
      var key := Key(user);
      var asked := Asked(m, user, question);
      match completion
      case Raised => Outcome(asked, Failure)
      case Completed(content) =>
        var reply := Filter(Strip(content));
        var answered := Append(asked, key, Turn(Assistant, reply));
        Outcome(TrimEntry(answered, key, cfg.maxMemory), Answer(reply))
  }

  /** The fixed texts sent back: the rejection outside the allowed channel
      and the generic error after a raised completion. */
  lemma StepMessages(cfg: Config, m: Memory, channel: int, user: nat, question: string,
                     completion: Completion)
    ensures var o := Step(cfg, m, channel, user, question, completion);
      && (channel != cfg.allowedChannel ==>
            Message(o.response) == "I only respond in the designated channel.")
      && (channel == cfg.allowedChannel && completion == Raised ==>
            Message(o.response) == "An error occurred while processing your request.")
  {
  }

  /** A user seen for the first time is seeded with the two system turns,
      in order, before the question is appended. */
  lemma NewUserSeeded(m: Memory, user: nat, question: string)
    requires Key(user) !in m
    ensures Prompt(m, user, question) == Seed + [Turn(User, question)]
  {
    var p := Prompt(m, user, question);
    assert p[..|p| - 1] == Seed;
  }

  /** A failed completion leaves the recorded question behind: the history
      gains exactly the user turn, with no assistant turn and no trim. */
  lemma FailureKeepsQuestion(cfg: Config, m: Memory, user: nat, question: string)
    ensures var o := Step(cfg, m, cfg.allowedChannel, user, question, Raised);
      && o.response == Failure
      && o.memory[Key(user)] == Current(m, Key(user)) + [Turn(User, question)]
  {
    var p := Prompt(m, user, question);
    assert p == p[..|p| - 1] + [p[|p| - 1]];
  }

  /** A successful completion appends the question and the guarded reply,
      then trims; the reply sent is the guarded, stripped content. */
  lemma SuccessAppendsAndTrims(cfg: Config, m: Memory, user: nat, question: string, content: string)
    ensures var o := Step(cfg, m, cfg.allowedChannel, user, question, Completed(content));
      var reply := Filter(Strip(content));
      && o.response == Answer(reply)
      && o.memory[Key(user)]
         == Trim(Current(m, Key(user)) + [Turn(User, question), Turn(Assistant, reply)], cfg.maxMemory)
  {
    var p := Prompt(m, user, question);
    var reply := Filter(Strip(content));
    assert p == Current(m, Key(user)) + [Turn(User, question)] by {
      assert p == p[..|p| - 1] + [p[|p| - 1]];
    }
    assert p + [Turn(Assistant, reply)]
        == Current(m, Key(user)) + [Turn(User, question), Turn(Assistant, reply)];
  }

  /** After a success the history holds `min(|prior| + 2, keep + 2)` turns and,
      with a window of at least two, ends with the question and the reply. */
  lemma SuccessWindow(cfg: Config, m: Memory, user: nat, question: string, content: string)
    requires cfg.maxMemory >= 2
    ensures var o := Step(cfg, m, cfg.allowedChannel, user, question, Completed(content));
      var h := o.memory[Key(user)];
      var prior := Current(m, Key(user));
      && |h| == (if |prior| + 2 <= cfg.maxMemory + 2 then |prior| + 2 else cfg.maxMemory + 2)
      && h[|h| - 2..] == [Turn(User, question), Turn(Assistant, Filter(Strip(content)))]
  {
    SuccessAppendsAndTrims(cfg, m, user, question, content);
    AppendPairThenTrim(Current(m, Key(user)), Turn(User, question),
                       Turn(Assistant, Filter(Strip(content))), cfg.maxMemory);
  }

  /** The reply a user receives never contains a trigger: a hedging reply is
      replaced by the refusal, any other reply comes through stripped. */
  lemma AnswerIsGuarded(cfg: Config, m: Memory, channel: int, user: nat, question: string, content: string)
    requires channel == cfg.allowedChannel
    ensures var o := Step(cfg, m, channel, user, question, Completed(content));
      && o.response.Answer?
      && !Hedges(o.response.text)
      && (HasTrigger(Strip(content)) ==> o.response.text == Refusal)
      && (!HasTrigger(Strip(content)) ==> o.response.text == Strip(content))
  {
    var stripped := Strip(content);
    var reply := Filter(stripped);
    SuccessAppendsAndTrims(cfg, m, user, question, content);
    assert Step(cfg, m, channel, user, question, Completed(content)).response == Answer(reply);
  }

  /** The asking user's history stays pinned whatever the completion did. */
  lemma StepKeepsUserPinned(cfg: Config, m: Memory, user: nat, question: string, completion: Completion)
    requires Pinned(Current(m, Key(user)))
    ensures Pinned(Step(cfg, m, cfg.allowedChannel, user, question, completion).memory[Key(user)])
  {
    var prior := Current(m, Key(user));
    if completion.Completed? {
      var reply := Filter(Strip(completion.content));
      SuccessAppendsAndTrims(cfg, m, user, question, completion.content);
      var full := prior + [Turn(User, question), Turn(Assistant, reply)];
      AppendKeepsPinned(prior, [Turn(User, question), Turn(Assistant, reply)]);
      TrimKeepsPinned(full, cfg.maxMemory);
    } else {
      FailureKeepsQuestion(cfg, m, user, question);
      AppendKeepsPinned(prior, [Turn(User, question)]);
    }
  }

  /** Every request keeps the system turns pinned in front of every history. */
  lemma StepKeepsPinned(cfg: Config, m: Memory, channel: int, user: nat, question: string,
                        completion: Completion)
    requires AllPinned(m)
    ensures AllPinned(Step(cfg, m, channel, user, question, completion).memory)
  {
    var r := Step(cfg, m, channel, user, question, completion).memory;
    if channel == cfg.allowedChannel {
      var key := Key(user);
      SeedPinned();
      assert Pinned(Current(m, key));
      StepKeepsUserPinned(cfg, m, user, question, completion);
      forall k | k in r
        ensures Pinned(r[k])
      {
        if k != key {
          assert k in m && r[k] == m[k];
        }
      }
    } else {
      assert r == m;
    }
  }

  /** A successful request brings the asking user's history back inside the
      window, whatever its length was, and leaves the others alone. */
  lemma SuccessKeepsBounded(cfg: Config, m: Memory, channel: int, user: nat, question: string,
                            content: string)
    requires cfg.maxMemory > 0
    requires Bounded(m, cfg.maxMemory)
    ensures Bounded(Step(cfg, m, channel, user, question, Completed(content)).memory, cfg.maxMemory)
  {
    if channel == cfg.allowedChannel {
      SuccessAppendsAndTrims(cfg, m, user, question, content);
    }
  }

  /** One incoming /ask interaction with the completion outcome it met. */
  datatype Request = Request(channel: int, user: nat, question: string, completion: Completion)

  /** The store after handling `reqs` one after the other. */
  function Run(cfg: Config, m: Memory, reqs: seq<Request>): (r: Memory)
    ensures m.Keys <= r.Keys
    decreases |reqs|
  {
    if reqs == [] then m
    else
      var q := reqs[0];
      Run(cfg, Step(cfg, m, q.channel, q.user, q.question, q.completion).memory, reqs[1..])
  }

  /** The system turns stay pinned across any sequence of requests. */
  lemma {:induction false} RunKeepsPinned(cfg: Config, m: Memory, reqs: seq<Request>)
    requires AllPinned(m)
    ensures AllPinned(Run(cfg, m, reqs))
    decreases |reqs|
  {
    if reqs != [] {
      var q := reqs[0];
      StepKeepsPinned(cfg, m, q.channel, q.user, q.question, q.completion);
      RunKeepsPinned(cfg, Step(cfg, m, q.channel, q.user, q.question, q.completion).memory, reqs[1..]);
    }
  }

  predicate AllSucceed(reqs: seq<Request>) {
    forall i :: 0 <= i < |reqs| ==> reqs[i].completion.Completed?
  }

  /** While every completion succeeds, no history outgrows the window. */
  lemma {:induction false} RunSucceedingBounded(cfg: Config, m: Memory, reqs: seq<Request>)
    requires cfg.maxMemory > 0
    requires Bounded(m, cfg.maxMemory)
    requires AllSucceed(reqs)
    ensures Bounded(Run(cfg, m, reqs), cfg.maxMemory)
    decreases |reqs|
  {
    if reqs != [] {
      var q := reqs[0];
      assert q.completion.Completed?;
      SuccessKeepsBounded(cfg, m, q.channel, q.user, q.question, q.completion.content);
      RunSucceedingBounded(cfg, Step(cfg, m, q.channel, q.user, q.question, q.completion).memory, reqs[1..]);
    }
  }

  /** Every request comes from `user` in the allowed channel and fails. */
  predicate AllFailFor(cfg: Config, user: nat, reqs: seq<Request>) {
    forall i :: 0 <= i < |reqs| ==>
      reqs[i].channel == cfg.allowedChannel && reqs[i].user == user && reqs[i].completion == Raised
  }

  /** Failures are never trimmed: each one leaves one more turn behind, so
      the window bound holds only after the next success. */
  lemma {:induction false} RunFailuresAccumulate(cfg: Config, m: Memory, user: nat, reqs: seq<Request>)
    requires reqs != []
    requires AllFailFor(cfg, user, reqs)
    ensures Key(user) in Run(cfg, m, reqs)
    ensures |Run(cfg, m, reqs)[Key(user)]| == |Current(m, Key(user))| + |reqs|
    decreases |reqs|
  {
    var q := reqs[0];
    var m' := Step(cfg, m, q.channel, q.user, q.question, q.completion).memory;
    FailureKeepsQuestion(cfg, m, user, q.question);
    if |reqs| > 1 {
      assert AllFailFor(cfg, user, reqs[1..]) by {
        forall i | 0 <= i < |reqs[1..]|
          ensures reqs[1..][i].channel == cfg.allowedChannel
          ensures reqs[1..][i].user == user && reqs[1..][i].completion == Raised
        {
          assert reqs[1..][i] == reqs[i + 1];
        }
      }
      RunFailuresAccumulate(cfg, m', user, reqs[1..]);
    }
  }

  /** Requests of other users never touch this user's entry. */
  lemma {:induction false} RunIsolatesUsers(cfg: Config, m: Memory, user: nat, reqs: seq<Request>)
    requires forall i :: 0 <= i < |reqs| ==> reqs[i].user != user
    ensures Key(user) in Run(cfg, m, reqs) <==> Key(user) in m
    ensures Key(user) in m ==> Run(cfg, m, reqs)[Key(user)] == m[Key(user)]
    decreases |reqs|
  {
    if reqs != [] {
      var q := reqs[0];
      DecimalInjective(q.user, user);
      var m' := Step(cfg, m, q.channel, q.user, q.question, q.completion).memory;
      RunIsolatesUsers(cfg, m', user, reqs[1..]);
    }
  }
}
