/** The on-page diagnostic log of the audio player: every entry is appended,
    and only the newest sixty are kept. */
module AudioLogs {

  const Capacity: nat := 60

  /** The last n entries of h (all of h when it is shorter). */
  function Newest(h: seq<string>, n: nat): (r: seq<string>)
    ensures |r| == if |h| <= n then |h| else n
    ensures r == h[|h| - |r|..]
  {
    if |h| <= n then h else h[|h| - n..]
  }

  /** `[...log, entry].slice(-60)`: the entry goes last, the log never grows
      past the capacity, and what survives is the newest part, in order. */
  function Appended(log: seq<string>, entry: string): (r: seq<string>)
    ensures |r| == if |log| < Capacity then |log| + 1 else Capacity
    ensures r[|r| - 1] == entry
    ensures r[..|r| - 1] == log[|log| + 1 - |r|..]
  {
    var l := log + [entry];
    if |l| <= Capacity then l else l[|l| - Capacity..]
  }

  /** Keeping the newest entries after each append is the same as keeping the
      newest entries of everything ever appended. */
  lemma {:induction false} AppendedKeepsNewest(h: seq<string>, entry: string)
    ensures Appended(Newest(h, Capacity), entry) == Newest(h + [entry], Capacity)
  {
    var l := Newest(h, Capacity);
    var r := Appended(l, entry);
    var full := h + [entry];
    var want := Newest(full, Capacity);
    assert |r| == |want|;
    assert r[..|r| - 1] == l[|l| + 1 - |r|..];
    forall i | 0 <= i < |r| ensures r[i] == want[i] {
      if i < |r| - 1 {
        assert r[i] == r[..|r| - 1][i] == l[|l| + 1 - |r| + i];
        assert l[|l| + 1 - |r| + i] == h[|h| - |l| + |l| + 1 - |r| + i];
        assert want[i] == full[|full| - |r| + i];
      }
    }
  }

  class AudioLog {
    var entries: seq<string>
    /** Every entry ever added, oldest first. */
    ghost var history: seq<string>

    ghost predicate Valid()
      reads this
    {
      entries == Newest(history, Capacity)
    }

    constructor ()
      ensures Valid() && entries == [] && history == []
    {
      entries := [];
      history := [];
    }

    /** `addAudioLog`: the entry text, already stamped with the time. */
    method Add(entry: string)
      requires Valid()
      modifies this
      ensures Valid()
      ensures history == old(history) + [entry]
      ensures entries == Appended(old(entries), entry)
    {
      AppendedKeepsNewest(history, entry);
      entries := Appended(entries, entry);
      history := history + [entry];
    }
  }
}
