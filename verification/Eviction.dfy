/** What the eviction loop of `remember` keeps and what it gives up. */
module Eviction {
  import opened Bytes
  import opened Options
  import opened Channel

  lemma BodyBytesConcat(a: seq<Entry>, b: seq<Entry>)
    ensures BodyBytes(a + b) == BodyBytes(a) + BodyBytes(b)
  {
    if |a| == 0 {
      assert a + b == b;
    } else {
      BodyBytesConcat(a[1..], b);
      assert (a + b)[1..] == a[1..] + b;
    }
  }

  lemma BodyBytesWithout(history: seq<Entry>, index: nat)
    requires index < |history|
    ensures BodyBytes(history) == BodyBytes(Without(history, index)) + |history[index].body|
  {
    BodyBytesConcat(history[..index], history[index + 1..]);
    BodyBytesConcat(history[..index], history[index..]);
    assert history == history[..index] + history[index..];
    assert history[index..][1..] == history[index + 1..];
  }

  /** Only bodies count: changing anything else about the entries leaves the charge alone. */
  lemma BodyBytesSame(a: seq<Entry>, b: seq<Entry>)
    requires |a| == |b| && forall i | 0 <= i < |a| :: a[i].body == b[i].body
    ensures BodyBytes(a) == BodyBytes(b)
  {
    if |a| > 0 {
      BodyBytesSame(a[1..], b[1..]);
    }
  }

  /** `part` is `whole` with some entries left out. */
  ghost predicate Thinned(part: seq<Entry>, whole: seq<Entry>) {
    exists at: seq<nat> :: Embeds(part, whole, at)
  }

  ghost predicate Embeds(part: seq<Entry>, whole: seq<Entry>, at: seq<nat>) {
    && |at| == |part|
    && (forall i | 0 <= i < |part| :: at[i] < |whole| && part[i] == whole[at[i]])
    && (forall i, j | 0 <= i < j < |part| :: at[i] < at[j])
  }

  lemma ThinnedSelf(history: seq<Entry>)
    ensures Thinned(history, history)
  {
    assert Embeds(history, history, seq(|history|, i => i));
  }

  lemma ThinnedWithout(history: seq<Entry>, index: nat)
    requires index < |history|
    ensures Thinned(Without(history, index), history)
  {
    assert Embeds(Without(history, index), history, seq(|history| - 1, i => if i < index then i else i + 1));
  }

  lemma ThinnedTransitive(a: seq<Entry>, b: seq<Entry>, c: seq<Entry>)
    requires Thinned(a, b) && Thinned(b, c)
    ensures Thinned(a, c)
  {
    var ab :| Embeds(a, b, ab);
    var bc :| Embeds(b, c, bc);
    assert Embeds(a, c, seq(|a|, i requires 0 <= i < |a| => bc[ab[i]]));
  }

  lemma ThinnedKeeps(part: seq<Entry>, whole: seq<Entry>, key: Option<seq<byte>>)
    requires Thinned(part, whole)
    ensures forall e | e in part :: e in whole
    ensures Increasing(whole) ==> Increasing(part)
    ensures DistinctBodies(whole) ==> DistinctBodies(part)
    ensures Keyed(whole, key) ==> Keyed(part, key)
  {
    var at :| Embeds(part, whole, at);
  }

  /** The loop ends inside both limits, only by leaving entries out. */
  lemma {:induction false} EvictFits(history: seq<Entry>, now: nat)
    ensures Fits(Evict(history, now))
    ensures Thinned(Evict(history, now), history)
    decreases |history|
  {
    if Fits(history) || |history| == 0 {
      ThinnedSelf(history);
    } else {
      var rest := Without(history, Victim(history, now));
      EvictFits(rest, now);
      ThinnedWithout(history, Victim(history, now));
      ThinnedTransitive(Evict(history, now), rest, history);
    }
  }

  /** The newest entry, which is the one `remember` returns after a push, always survives. */
  lemma {:induction false} EvictKeepsNewest(history: seq<Entry>, now: nat)
    requires |history| > 0 && Protected(history[|history| - 1], now)
    requires |history[|history| - 1].body| <= REPLAY_HISTORY_BYTES
    ensures |Evict(history, now)| > 0
    ensures Evict(history, now)[|Evict(history, now)| - 1] == history[|history| - 1]
    decreases |history|
  {
    if |history| == 1 {
      assert BodyBytes(history) == |history[0].body| + BodyBytes(history[1..]);
    } else if !Fits(history) {
      var rest := Without(history, Victim(history, now));
      assert rest[|rest| - 1] == history[|history| - 1];
      EvictKeepsNewest(rest, now);
    }
  }

  /** A protected entry goes only when nothing unprotected is left. */
  lemma {:induction false} EvictProtectedLast(history: seq<Entry>, now: nat, lost: Entry)
    requires lost in history && lost !in Evict(history, now) && Protected(lost, now)
    ensures forall e | e in Evict(history, now) :: Protected(e, now)
    decreases |history|
  {
    assert !Fits(history);
    var victim := Victim(history, now);
    var rest := Without(history, victim);
    if lost in rest {
      EvictProtectedLast(rest, now, lost);
    } else {
      assert lost == history[victim];
      EvictFits(rest, now);
      ThinnedKeeps(Evict(rest, now), rest, None);
    }
  }

  lemma InWithout(history: seq<Entry>, index: nat, entry: Entry)
    requires index < |history| && entry in history && entry != history[index]
    ensures entry in Without(history, index)
  {
    var i :| 0 <= i < |history| && history[i] == entry;
    assert Without(history, index)[if i < index then i else i - 1] == entry;
  }

  /** Among the unprotected, the oldest goes first. */
  lemma {:induction false} EvictOldestFirst(history: seq<Entry>, now: nat, older: Entry, newer: Entry)
    requires Increasing(history) && older in history && newer in history && older.sequence < newer.sequence
    requires !Protected(older, now) && !Protected(newer, now)
    requires newer !in Evict(history, now)
    ensures older !in Evict(history, now)
    decreases |history|
  {
    var victim := Victim(history, now);
    var rest := Without(history, victim);
    EvictFits(rest, now);
    ThinnedWithout(history, victim);
    ThinnedKeeps(rest, history, None);
    ThinnedKeeps(Evict(rest, now), rest, None);
    assert newer != history[victim];
    InWithout(history, victim, newer);
    if older in rest {
      EvictOldestFirst(rest, now, older, newer);
    }
  }
}
