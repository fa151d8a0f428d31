/** Which Fake TLS greetings a proxy accepts: the authentication of one record, and the memory that keeps
    a record from being accepted again. Times are in milliseconds; the wall clock and the monotonic clock
    advance together and are counted from the same moment. */
module ReplayCache {
  import opened Bytes
  import opened Clock
  import opened Options
  import opened Totals

  const TIMESTAMP_TOLERANCE := 120
  const KEPT_FOR := 300_000
  const CAPACITY := 4096

  const ZERO_RANDOM: seq<byte> :=
    [0, 0, 0, 0, 0, 0, 0, 0, 0, 0, 0, 0, 0, 0, 0, 0, 0, 0, 0, 0, 0, 0, 0, 0, 0, 0, 0, 0, 0, 0, 0, 0]

  type Digest = d: seq<byte> | |d| == 32 witness ZERO_RANDOM

  /** The keyed hash, known only as a function of key and message. */
  type Mac = (seq<byte>, seq<byte>) -> Digest

  datatype Hello = Hello(random: seq<byte>, sessionId: seq<byte>)

  datatype Refusal = NotAHello | BadMac | Expired

  // ---------------------------------------------------------------- one record

  /** The record with its random blanked out. */
  function Blanked(data: seq<byte>): seq<byte>
    requires |data| >= 43
  {
    data[..11] + ZERO_RANDOM + data[43..]
  }

  function XorAll(a: seq<byte>, b: seq<byte>): (r: seq<byte>)
    requires |a| == |b|
    ensures |r| == |a|
  {
    seq(|a|, i requires 0 <= i < |a| => Xor(a[i], b[i]))
  }

  /** The moment a record carries, in seconds. */
  function Timestamp(mac: Mac, secret: seq<byte>, data: seq<byte>): nat
    requires |data| >= 43
  {
    FromLe(XorAll(data[39..43], mac(secret, Blanked(data))[28..]))
  }

  function Distance(a: nat, b: nat): nat {
    if a > b then a - b else b - a
  }

  /** `now` is the wall clock in whole seconds. */
  function Authenticate(mac: Mac, secret: seq<byte>, data: seq<byte>, now: nat): Result<Hello, Refusal> {
    if |data| < 43 || data[0] != 0x16 || data[5] != 1 then Err(NotAHello)
    else if mac(secret, Blanked(data))[..28] != data[11..39] then Err(BadMac)
    else if Distance(now, Timestamp(mac, secret, data)) > TIMESTAMP_TOLERANCE then Err(Expired)
    else Ok(Hello(data[11..43], if |data| >= 76 && data[43] == 32 then data[44..76] else ZERO_RANDOM))
  }

  /** A greeting made by someone who knows the secret. */
  function Genuine(mac: Mac, secret: seq<byte>, before: seq<byte>, after: seq<byte>, timestamp: nat): seq<byte>
    requires |before| == 11 && timestamp < 0x1_0000_0000
  {
    var digest := mac(secret, before + ZERO_RANDOM + after);
    before + (digest[..28] + XorAll(ToLe(timestamp, 4), digest[28..])) + after
  }

  /** It is accepted exactly while its timestamp is within the tolerance, and no other record is accepted. */
  lemma GenuineIsAccepted(mac: Mac, secret: seq<byte>, before: seq<byte>, after: seq<byte>, timestamp: nat, now: nat)
    requires |before| == 11 && before[0] == 0x16 && before[5] == 1 && timestamp < 0x1_0000_0000
    ensures var data := Genuine(mac, secret, before, after, timestamp);
      && |data| >= 43 && Timestamp(mac, secret, data) == timestamp
      && (Authenticate(mac, secret, data, now).Ok? <==> Distance(now, timestamp) <= TIMESTAMP_TOLERANCE)
  {
    var digest := mac(secret, before + ZERO_RANDOM + after);
    var hidden := XorAll(ToLe(timestamp, 4), digest[28..]);
    var data := Genuine(mac, secret, before, after, timestamp);
    GenuineSlices(before, digest[..28], hidden, after);
    XorAllTwice(ToLe(timestamp, 4), digest[28..]);
    assert Pow256(4) == 0x1_0000_0000 by { assert Pow256(2) == 65536; }
    LeRoundTrip(timestamp, 4);
  }

  lemma GenuineSlices(before: seq<byte>, authentic: seq<byte>, hidden: seq<byte>, after: seq<byte>)
    requires |before| == 11 && |authentic| == 28 && |hidden| == 4
    ensures var data := before + (authentic + hidden) + after;
      && data[..11] == before && data[11..39] == authentic && data[39..43] == hidden && data[43..] == after
      && Blanked(data) == before + ZERO_RANDOM + after
  {
    var data := before + (authentic + hidden) + after;
    assert data == before + authentic + hidden + after;
    assert data[..11] == before && data[43..] == after;
  }

  lemma XorAllTwice(a: seq<byte>, b: seq<byte>)
    requires |a| == |b|
    ensures XorAll(XorAll(a, b), b) == a
  {
    forall i | 0 <= i < |a| ensures XorAll(XorAll(a, b), b)[i] == a[i] {
      XorInvolutive(a[i], b[i]);
    }
  }

  /** Conversely every accepted record is genuine. */
  lemma AcceptedIsGenuine(mac: Mac, secret: seq<byte>, data: seq<byte>, now: nat)
    requires Authenticate(mac, secret, data, now).Ok?
    ensures var t := Timestamp(mac, secret, data);
      && t < 0x1_0000_0000 && data == Genuine(mac, secret, data[..11], data[43..], t)
      && Distance(now, t) <= TIMESTAMP_TOLERANCE
  {
    var digest := mac(secret, Blanked(data));
    var hidden := XorAll(data[39..43], digest[28..]);
    assert Pow256(4) == 0x1_0000_0000 by { assert Pow256(2) == 65536; }
    LeInverse(hidden);
    XorAllTwice(data[39..43], digest[28..]);
    assert data == data[..11] + (data[11..39] + data[39..43]) + data[43..];
  }

  // ---------------------------------------------------------------- the memory

  type Entries = map<seq<byte>, nat>

  function Retained(entries: Entries, at: nat): Entries {
    map r | r in entries && Since(at, entries[r]) < KEPT_FOR :: entries[r]
  }

  /** The locked section: forget what is old at `at`, refuse what is known, remember the rest. */
  function Remember(entries: Entries, random: seq<byte>, at: nat, insertedAt: nat): (Entries, bool) {
    var kept := Retained(entries, at);
    if random in kept || |kept| >= CAPACITY then (kept, false) else (kept[random := insertedAt], true)
  }

  class Cache {
    var entries: Entries

    constructor ()
      ensures entries == map[]
    {
      entries := map[];
    }

    method Admit(random: seq<byte>, at: nat, insertedAt: nat) returns (accepted: bool)
      modifies this
      ensures (entries, accepted) == Remember(old(entries), random, at, insertedAt)
    {
      entries := map r | r in entries && Since(at, entries[r]) < KEPT_FOR :: entries[r];
      if random in entries {
        return false;
      }
      if |entries| >= CAPACITY {
        return false;
      }
      entries := entries[random := insertedAt];
      return true;
    }

    /** A greeting from the wire: a record that does not authenticate leaves the memory alone. */
    method Greet(mac: Mac, secret: seq<byte>, a: Attempt) returns (accepted: bool)
      modifies this
      ensures (entries, accepted) == Attempted(mac, secret, old(entries), a)
    {
      var hello := Authenticate(mac, secret, a.record, a.wall / 1000);
      if hello.Err? {
        return false;
      }
      accepted := Admit(hello.value.random, a.at, a.insertedAt);
    }
  }

  // ---------------------------------------------------------------- runs

  /** One greeting: the wall clock is read at `wall`, the locked section looks at its clock at `at` and again
      when it inserts. */
  datatype Attempt = Attempt(record: seq<byte>, wall: nat, at: nat, insertedAt: nat)

  /** Locked sections follow one another, and no thread takes longer than `lag` from reading the wall clock
      to its locked section. */
  predicate IsRun(run: seq<Attempt>, lag: nat) {
    && (forall i {:trigger run[i]} | 0 <= i < |run| ::
         run[i].wall <= run[i].at <= run[i].insertedAt && run[i].at - run[i].wall <= lag)
    && (forall i, j {:trigger run[i], run[j]} | 0 <= i < j < |run| :: run[i].insertedAt <= run[j].at)
  }

  function Attempted(mac: Mac, secret: seq<byte>, entries: Entries, a: Attempt): (Entries, bool) {
    match Authenticate(mac, secret, a.record, a.wall / 1000)
    case Err(_) => (entries, false)
    case Ok(hello) => Remember(entries, hello.random, a.at, a.insertedAt)
  }

  /** What is remembered after the first `n` attempts of a run. */
  function EntriesAfter(mac: Mac, secret: seq<byte>, run: seq<Attempt>, n: nat): Entries
    requires n <= |run|
  {
    if n == 0 then map[] else Attempted(mac, secret, EntriesAfter(mac, secret, run, n - 1), run[n - 1]).0
  }

  predicate Accepted(mac: Mac, secret: seq<byte>, run: seq<Attempt>, i: nat)
    requires i < |run|
  {
    Attempted(mac, secret, EntriesAfter(mac, secret, run, i), run[i]).1
  }

  lemma RetainedSize(entries: Entries, at: nat)
    ensures |Retained(entries, at)| <= |entries|
  {
    var kept := Retained(entries, at);
    assert kept.Keys <= entries.Keys;
    SubsetSize(kept.Keys, entries.Keys);
  }

  /** The memory never holds more than its capacity. */
  lemma {:induction false} NeverOverCapacity(mac: Mac, secret: seq<byte>, run: seq<Attempt>, n: nat)
    requires n <= |run|
    ensures |EntriesAfter(mac, secret, run, n)| <= CAPACITY
  {
    if n > 0 {
      NeverOverCapacity(mac, secret, run, n - 1);
      RetainedSize(EntriesAfter(mac, secret, run, n - 1), run[n - 1].at);
    }
  }

  /** An accepted random is still there as long as it is young enough. */
  lemma {:induction false} Kept(mac: Mac, secret: seq<byte>, run: seq<Attempt>, lag: nat, i: nat, n: nat)
    requires IsRun(run, lag) && i < n <= |run| && Accepted(mac, secret, run, i)
    requires run[n - 1].at < run[i].insertedAt + KEPT_FOR
    ensures var entries, random := EntriesAfter(mac, secret, run, n), run[i].record[11..43];
      random in entries && run[i].insertedAt <= entries[random]
  {
    if n > i + 1 {
      assert run[n - 2].insertedAt <= run[n - 1].at;
      Kept(mac, secret, run, lag, i, n - 1);
    }
  }

  lemma AcceptedInTime(mac: Mac, secret: seq<byte>, run: seq<Attempt>, i: nat)
    requires i < |run| && Accepted(mac, secret, run, i)
    ensures |run[i].record| >= 43
    ensures Distance(run[i].wall / 1000, Timestamp(mac, secret, run[i].record)) <= TIMESTAMP_TOLERANCE
  {
  }

  /** No record is accepted twice, as long as no thread dawdles for more than 59 seconds. */
  lemma NeverTwice(mac: Mac, secret: seq<byte>, run: seq<Attempt>, lag: nat, i: nat, j: nat)
    requires IsRun(run, lag) && lag <= 59_000 && i < j < |run|
    requires Accepted(mac, secret, run, i) && Accepted(mac, secret, run, j)
    ensures run[i].record != run[j].record
  {
    if run[i].record == run[j].record {
      AcceptedInTime(mac, secret, run, i);
      AcceptedInTime(mac, secret, run, j);
      assert run[j].wall - run[i].wall < 241_000;
      assert run[j].at < run[i].insertedAt + KEPT_FOR;
      assert run[j - 1].at <= run[j].at;
      Kept(mac, secret, run, lag, i, j);
      assert false;
    }
  }

  // ---------------------------------------------------------------- the bound is exact

  /** Attempts `i` and `j` of the run are with the same record and both succeed. */
  predicate AcceptedAgain(mac: Mac, secret: seq<byte>, run: seq<Attempt>, i: nat, j: nat) {
    && i < j < |run| && run[i].record == run[j].record
    && Accepted(mac, secret, run, i) && Accepted(mac, secret, run, j)
  }

  /** A record stamped 120 s ahead, accepted at once and again by a thread that stood still for 59.001 s
      after reading the clock 240.999 s later. */
  lemma AcceptedTwice(mac: Mac, secret: seq<byte>, lag: nat) returns (run: seq<Attempt>)
    requires lag >= 59_001
    ensures IsRun(run, lag) && |run| == 2 && run[0].record == run[1].record
    ensures Accepted(mac, secret, run, 0) && Accepted(mac, secret, run, 1)
  {
    var before: seq<byte> := [0x16, 3, 1, 0, 71, 1, 0, 0, 67, 3, 3];
    var record := Genuine(mac, secret, before, [], 120);
    GenuineIsAccepted(mac, secret, before, [], 120, 0);
    GenuineIsAccepted(mac, secret, before, [], 120, 240);
    run := [Attempt(record, 0, 0, 0), Attempt(record, 240_999, 300_000, 300_000)];
    var first := EntriesAfter(mac, secret, run, 1);
    assert EntriesAfter(mac, secret, run, 0) == map[];
    assert Retained(map[], 0) == map[];
    var random := record[11..43];
    assert first == map[random := 0];
    assert Retained(first, 300_000) == map[];
  }

  /** Fifty-nine seconds is exactly the delay the memory can bear. */
  lemma LagThreshold(mac: Mac, secret: seq<byte>, lag: nat)
    ensures (forall run, i, j | IsRun(run, lag) :: !AcceptedAgain(mac, secret, run, i, j)) <==> lag <= 59_000
  {
    if lag <= 59_000 {
      forall run, i, j | IsRun(run, lag) ensures !AcceptedAgain(mac, secret, run, i, j) {
        if AcceptedAgain(mac, secret, run, i, j) {
          NeverTwice(mac, secret, run, lag, i, j);
        }
      }
    } else {
      var run := AcceptedTwice(mac, secret, lag);
      assert AcceptedAgain(mac, secret, run, 0, 1);
    }
  }
}
