/** The guard against guessing: a reply that, lowercased, says "i think" or
    "maybe" is replaced by a fixed refusal.

    The refusal text is written as a concatenation of short literals: the
    verifier checks that a letter is absent from a string literal one
    character at a time, and that check stays cheap only on short pieces.
    The concatenation denotes the same text. */
module Guard {
  import opened Text

  const Refusal: string :=
    "I don't " + "have " + "enough " + "information " + "to " + "answer " + "that "
    + "accurately. " + "Please " + "provide " + "more " + "details."

  const ThinkTrigger: string := "i think"
  const MaybeTrigger: string := "maybe"

  /** The guard's test on a stripped reply. */
  predicate Hedges(reply: string) {
    Contains(Lower(reply), ThinkTrigger) || Contains(Lower(reply), MaybeTrigger)
  }

  /** Either trigger occurs somewhere in the lowercased reply. */
  ghost predicate HasTrigger(reply: string) {
    || (exists i :: OccursAt(Lower(reply), ThinkTrigger, i))
    || (exists i :: OccursAt(Lower(reply), MaybeTrigger, i))
  }

  lemma HedgesIff(reply: string)
    ensures Hedges(reply) <==> HasTrigger(reply)
  {
    ContainsIff(Lower(reply), ThinkTrigger);
    ContainsIff(Lower(reply), MaybeTrigger);
  }

  lemma RefusalLacksK()
    ensures 'k' !in Refusal
  {
  }

  lemma RefusalLacksCapitalK()
    ensures 'K' !in Refusal
  {
  }

  lemma RefusalLacksB()
    ensures 'b' !in Refusal
  {
  }

  lemma RefusalLacksCapitalB()
    ensures 'B' !in Refusal
  {
  }

  /** Text without a `k` cannot say "i think", and text without a `b`
      cannot say "maybe", in either case. */
  lemma NoTriggerLetters(s: string)
    requires 'k' !in s && 'K' !in s && 'b' !in s && 'B' !in s
    ensures !Hedges(s)
  {
    var low := Lower(s);
    assert 'k' !in low && 'b' !in low by {
      forall i | 0 <= i < |low|
        ensures low[i] != 'k' && low[i] != 'b'
      {
        assert s[i] in s;
      }
    }
    MissingCharNoMatch(low, ThinkTrigger, 'k');
    MissingCharNoMatch(low, MaybeTrigger, 'b');
  }

  /** The refusal text says neither "i think" nor "maybe" in any case. */
  lemma RefusalDoesNotHedge()
    ensures !Hedges(Refusal)
  {
    RefusalLacksK();
    RefusalLacksCapitalK();
    RefusalLacksB();
    RefusalLacksCapitalB();
    NoTriggerLetters(Refusal);
  }

  /** The reply sent and remembered: the refusal when a trigger occurs,
      otherwise the reply itself. What comes out never hedges. */
  function Filter(reply: string): (r: string)
    ensures HasTrigger(reply) ==> r == Refusal
    ensures !HasTrigger(reply) ==> r == reply
    ensures !Hedges(r)
  {
    HedgesIff(reply);
    RefusalDoesNotHedge();
    if Hedges(reply) then Refusal else reply
  }

  /** Filtering an already filtered reply changes nothing. */
  lemma FilterIdempotent(reply: string)
    ensures Filter(Filter(reply)) == Filter(reply)
  {
    HedgesIff(Filter(reply));
  }
}
