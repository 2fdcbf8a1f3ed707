/** The data the /ask handler keeps per user: role-tagged chat turns, the two
    pinned system turns every history starts with, and the process-wide store
    keyed by the user's id string. */
module Turns {

  datatype Role = System | User | Assistant

  /** One `{"role": ..., "content": ...}` entry of a user's memory list. */
  datatype Turn = Turn(role: Role, content: string)

  type History = seq<Turn>

  /** `user_memory`: user id string to that user's history. */
  type Memory = map<string, History>

  /** The identity and tone instructions of the first system turn. */
  const SystemPrompt: string :=
    "You are chicken.ai, a factual, careful, and intelligent AI assistant. "
    + "You answer like ChatGPT in a clear and neutral tone. "
    + "You never guess or make up information. "
    + "If you do not know something, you say 'I don't know' clearly. "
    + "You only use information explicitly provided by the user or well-known facts. "
    + "You remember user-provided personal facts like names when told. "
    + "Do not roleplay. Do not add unnecessary humor."

  /** The memory-discipline instructions of the second system turn. */
  const MemoryPrompt: string :=
    "Only remember facts the user explicitly states. "
    + "Do not infer or assume personal information."

  /** What a user with no entry yet is given before the first question. */
  const Seed: History := [Turn(System, SystemPrompt), Turn(System, MemoryPrompt)]

  /** A history that begins with the two seeded system turns. */
  predicate Pinned(h: History) {
    |h| >= 2 && h[..2] == Seed
  }

  lemma SeedPinned()
    ensures Pinned(Seed)
  {
    assert Seed[..2] == Seed;
  }

  /** Every history in the store begins with the seeded system turns. */
  predicate AllPinned(m: Memory) {
    forall k :: k in m ==> Pinned(m[k])
  }

  /** Every history in the store holds at most `keep` turns past the pinned two. */
  predicate Bounded(m: Memory, keep: nat) {
    forall k :: k in m ==> |m[k]| <= keep + 2
  }
}
