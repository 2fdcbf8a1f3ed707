/** Two concrete conversations with the deployed constants.

    As with the refusal text, the sample answer is written as short literal
    pieces so that the verifier can check letter by letter that it holds no
    trigger; the concatenation denotes the same text. */
module Conversations {
  import opened Turns
  import opened Text
  import opened Guard
  import opened Store
  import opened UserId
  import opened Ask

  const Question: string := "What is the capital of France?"
  const Paris: string := "The " + "capital " + "of " + "France " + "is " + "Paris."

  lemma KeyOf42(user: nat)
    requires user == 42
    ensures Key(user) == "42"
  {
  }

  lemma ParisUnstripped()
    ensures Strip(Paris) == Paris
  {
    StripUnchanged(Paris);
  }

  lemma ParisDoesNotHedge()
    ensures !Hedges(Paris)
  {
    assert 'k' !in Paris && 'K' !in Paris;
    assert 'b' !in Paris && 'B' !in Paris;
    NoTriggerLetters(Paris);
  }

  /** The Paris answer has no surrounding whitespace and no trigger. */
  lemma ParisIsPlain(answer: string)
    requires answer == Paris
    ensures Strip(answer) == answer && !Hedges(answer)
  {
    ParisUnstripped();
    ParisDoesNotHedge();
  }

  /** A new user's first question answered with text that needs neither
      stripping nor guarding: the answer comes back unchanged and the
      history holds the two system turns, the question and the answer. */
  lemma PlainFirstAnswer(cfg: Config, m: Memory, user: nat, question: string, answer: string)
    requires Key(user) !in m
    requires cfg.maxMemory >= 2
    requires Strip(answer) == answer && !Hedges(answer)
    ensures var o := Step(cfg, m, cfg.allowedChannel, user, question, Completed(answer));
      && o.response == Answer(answer)
      && o.memory[Key(user)] == Seed + [Turn(User, question), Turn(Assistant, answer)]
  {
    HedgesIff(answer);
    SuccessAppendsAndTrims(cfg, m, user, question, answer);
  }

  /** User 42 asks for the capital of France in the allowed channel and is
      told Paris: the answer is sent as given and the history has length 4. */
  lemma FirstQuestion(m: Memory, user: nat, question: string, answer: string)
    requires user == 42 && question == Question && answer == Paris
    requires "42" !in m
    ensures var o := Step(Deployed, m, Deployed.allowedChannel, user, question, Completed(answer));
      && o.response == Answer(Paris)
      && |o.memory[Key(user)]| == 4
  {
    KeyOf42(user);
    ParisIsPlain(answer);
    PlainFirstAnswer(Deployed, m, user, question, answer);
    var h := Step(Deployed, m, Deployed.allowedChannel, user, question, Completed(answer)).memory[Key(user)];
    assert h == Seed + [Turn(User, question), Turn(Assistant, answer)];
    assert |Seed| == 2;
  }

  /** A question asked by a user whose history is already full: twelve turns
      before the trim, ten after, the system turns first and then the eight
      most recent turns in their original order. */
  lemma QuestionOnFullHistory(m: Memory, user: nat, question: string, content: string)
    requires Key(user) in m && Pinned(m[Key(user)]) && |m[Key(user)]| == 10
    ensures var o := Step(Deployed, m, Deployed.allowedChannel, user, question, Completed(content));
      var full := m[Key(user)] + [Turn(User, question), Turn(Assistant, Filter(Strip(content)))];
      var h := o.memory[Key(user)];
      && |full| == 12
      && |h| == 10
      && h[..2] == Seed
      && h[2..] == full[4..]
  {
    var reply := Filter(Strip(content));
    SuccessAppendsAndTrims(Deployed, m, user, question, content);
    var full := m[Key(user)] + [Turn(User, question), Turn(Assistant, reply)];
    AppendKeepsPinned(m[Key(user)], [Turn(User, question), Turn(Assistant, reply)]);
    TrimCut(full, 8);
  }
}
