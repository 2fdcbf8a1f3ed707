/** The mutations the /ask handler performs on `user_memory`: seeding a new
    user, appending a turn, and trimming a history to its rolling window. */
module Store {
  import opened Turns

  /** The history the handler works on: the stored one, or the seed. */
  function Current(m: Memory, key: string): History {
    if key in m then m[key] else Seed
  }

  /** Creates the entry of a user seen for the first time; an existing
      entry, and every other user's entry, is left as it is. */
  function Init(m: Memory, key: string): (r: Memory)
    ensures r.Keys == m.Keys + {key}
    ensures key !in m ==> r[key] == Seed
    ensures forall k :: k in m ==> r[k] == m[k]
  {
    if key in m then m else m[key := Seed]
  }

  /** `list.append`: the old history is a prefix and `t` is the new last
      turn; no other user's entry changes. */
  function Append(m: Memory, key: string, t: Turn): (r: Memory)
    requires key in m
    ensures r.Keys == m.Keys
    ensures |r[key]| == |m[key]| + 1
    ensures r[key][..|m[key]|] == m[key] && r[key][|m[key]|] == t
    ensures forall k :: k in m && k != key ==> r[k] == m[k]
  {
    m[key := m[key] + [t]]
  }

  /** Python's `h[-k:]`: the last `k` turns, the whole list when `k` is at
      least its length, and also the whole list when `k` is 0 (`-0 == 0`). */
  function LastN(h: History, k: nat): (r: History)
    ensures |r| <= |h| && r == h[|h| - |r|..]
    ensures k == 0 ==> r == h
    ensures k > 0 ==> |r| == (if k < |h| then k else |h|)
  {
    if k == 0 || k >= |h| then h else h[|h| - k..]
  }

  /** The trim after a successful reply: a history longer than `keep + 2`
      becomes its first two turns followed by its last `keep` turns. */
  function Trim(h: History, keep: nat): (r: History)
    ensures |h| <= keep + 2 ==> r == h
    ensures keep > 0 && |h| > keep + 2 ==>
      && |r| == keep + 2
      && r[0] == h[0] && r[1] == h[1]
      && forall i :: 2 <= i < |r| ==> r[i] == h[i + (|h| - |r|)]
  {
    if |h| > keep + 2 then h[..2] + LastN(h, keep) else h
  }

  /** The turns a trim drops: the oldest turns past the pinned two. */
  function Evicted(h: History, keep: nat): History {
    if |h| > keep + 2 then h[2..|h| - keep] else []
  }

  /** Nothing is lost but the evicted block: the kept head, the evicted
      turns and the kept tail put back together give the original history. */
  lemma TrimSplitsHistory(h: History, keep: nat)
    requires keep > 0
    ensures var r := Trim(h, keep);
      |h| > keep + 2 ==> h == r[..2] + Evicted(h, keep) + r[2..]
  {
    var r := Trim(h, keep);
    if |h| > keep + 2 {
      assert r[2..] == h[|h| - keep..];
      assert r[..2] == h[..2];
      assert h == h[..2] + h[2..|h| - keep] + h[|h| - keep..];
    }
  }

  /** A trim leaves `min(|h|, keep + 2)` turns. */
  lemma TrimLength(h: History, keep: nat)
    requires keep > 0
    ensures |Trim(h, keep)| == if |h| <= keep + 2 then |h| else keep + 2
  {
  }

  /** Appending turns keeps the seeded system turns in front. */
  lemma AppendKeepsPinned(h: History, more: History)
    requires Pinned(h)
    ensures Pinned(h + more)
  {
    assert (h + more)[..2] == h[..2];
  }

  /** A trim that cuts keeps the first two turns and the last `keep`. */
  lemma TrimCut(h: History, keep: nat)
    requires keep > 0 && |h| > keep + 2
    ensures Trim(h, keep)[..2] == h[..2]
    ensures Trim(h, keep)[2..] == h[|h| - keep..]
  {
  }

  /** A trim keeps the seeded system turns in front. */
  lemma TrimKeepsPinned(h: History, keep: nat)
    requires Pinned(h)
    ensures Pinned(Trim(h, keep))
  {
    var r := Trim(h, keep);
    if |h| > keep + 2 {
      assert r[..2] == h[..2];
    }
  }

  /** With a window of at least two, the last two turns survive a trim. */
  lemma TrimKeepsLastTwo(h: History, keep: nat)
    requires keep >= 2 && |h| >= 2
    ensures var r := Trim(h, keep);
      |r| >= 2 && r[|r| - 2..] == h[|h| - 2..]
  {
    var r := Trim(h, keep);
    if |h| > keep + 2 {
      assert r[|r| - 2] == h[|h| - 2];
      assert r[|r| - 1] == h[|h| - 1];
    }
  }

  /** Appending a question and its answer and trimming leaves
      `min(|h| + 2, keep + 2)` turns ending with the two appended ones. */
  lemma AppendPairThenTrim(h: History, question: Turn, answer: Turn, keep: nat)
    requires keep >= 2
    ensures var r := Trim(h + [question, answer], keep);
      && |r| == (if |h| + 2 <= keep + 2 then |h| + 2 else keep + 2)
      && r[|r| - 2..] == [question, answer]
  {
    var full := h + [question, answer];
    assert full[|full| - 2..] == [question, answer];
    TrimLength(full, keep);
    TrimKeepsLastTwo(full, keep);
  }

  /** Trimming a trimmed history changes nothing. */
  lemma TrimIdempotent(h: History, keep: nat)
    requires keep > 0
    ensures Trim(Trim(h, keep), keep) == Trim(h, keep)
  {
  }

  /** With a window of 0, Python's `h[-0:]` is the whole list, so the trim
      lengthens the history instead of shortening it. */
  lemma TrimZeroKeepGrows(h: History)
    requires |h| > 2
    ensures Trim(h, 0) == h[..2] + h
    ensures |Trim(h, 0)| == |h| + 2
  {
  }

  /** Trims the stored history of `key`; other entries are untouched. */
  function TrimEntry(m: Memory, key: string, keep: nat): (r: Memory)
    requires key in m
    ensures r.Keys == m.Keys
    ensures r[key] == Trim(m[key], keep)
    ensures forall k :: k in m && k != key ==> r[k] == m[k]
  {
    if |m[key]| > keep + 2 then m[key := Trim(m[key], keep)] else m
  }
}
