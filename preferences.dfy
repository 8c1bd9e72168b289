/**
 * The store's small toggles: follow or unfollow an artist, like or unlike an
 * album (both "remove if present, else append"), and the repeat-mode cycle.
 */
module Preferences {
  import opened Seqs
  import opened Types

  /**
   * `toggleFollowArtist` and `toggleAlbumLike`: `prev.includes(x) ?
   * prev.filter(y => y !== x) : [...prev, x]`.
   */
  function ToggleMember(s: seq<string>, x: string): (r: seq<string>)
    ensures (x in r) == (x !in s)
    ensures forall y :: y != x ==> (y in r <==> y in s)
    ensures x !in s ==> r == s + [x]
    ensures x in s ==> IsSubseq(r, s)
  {
    Toggle(s, x)
  }

  /** A toggle keeps a duplicate-free list duplicate-free. */
  lemma {:induction false} ToggleKeepsNoDup(s: seq<string>, x: string)
    requires NoDup(s)
    ensures NoDup(ToggleMember(s, x))
  {
    if x in s {
      RemoveAllNoDup(s, x);
    }
  }

  /**
   * Toggling twice restores the list when the item was absent; when it was
   * present it comes back at the end, so the same items remain.
   */
  lemma ToggleTwice(s: seq<string>, x: string)
    ensures x !in s ==> ToggleMember(ToggleMember(s, x), x) == s
    ensures forall y :: y in ToggleMember(ToggleMember(s, x), x) <==> y in s
  {
    if x !in s {
      RemoveAllAfterAppend(s, x);
    }
  }

  /** `toggleRepeat`: OFF -> CONTEXT -> ONE -> OFF. */
  function NextMode(m: PlayMode): (r: PlayMode)
    ensures r != m
  {
    match m
    case Off => Context
    case Context => One
    case One => Off
  }

  /** Three presses of the repeat button restore the mode, and no fewer do. */
  lemma RepeatCycle(m: PlayMode)
    ensures NextMode(NextMode(NextMode(m))) == m
    ensures NextMode(NextMode(m)) != m
  {
  }
}
