/** The installation-wide bound on login attempts (crates/rx-api/src/auth.rs, `Auth::verify`).
    Instants are nanoseconds on the monotonic clock. */
module LoginWindow {
  const WINDOW: nat := 60_000_000_000
  const ATTEMPTS: nat := 30

  /** `duration_since`, which saturates at zero when `t` is later than `now`. */
  function Age(now: nat, t: nat): nat { if t <= now then now - t else 0 }

  /** Drop entries from the front while they are a window old. */
  function Prune(queue: seq<nat>, now: nat): seq<nat> {
    if queue != [] && Age(now, queue[0]) >= WINDOW then Prune(queue[1..], now) else queue
  }

  function Admits(queue: seq<nat>, now: nat): bool { |Prune(queue, now)| < ATTEMPTS }

  function Enter(queue: seq<nat>, now: nat): seq<nat> {
    if Admits(queue, now) then Prune(queue, now) + [now] else Prune(queue, now)
  }

  /** The queue after the calls `nows`, in the order in which they took the lock. */
  function Queue(nows: seq<nat>): seq<nat> {
    if nows == [] then [] else Enter(Queue(nows[..|nows| - 1]), nows[|nows| - 1])
  }

  /** The attempts the queue let in. */
  function LetIn(nows: seq<nat>): seq<nat> {
    if nows == [] then [] else
    var before, now := nows[..|nows| - 1], nows[|nows| - 1];
    LetIn(before) + if Admits(Queue(before), now) then [now] else []
  }

  /** How many of `history` are less than a window old. */
  function Recent(history: seq<nat>, now: nat): nat {
    if history == [] then 0 else
    Recent(history[..|history| - 1], now) + if Age(now, history[|history| - 1]) < WINDOW then 1 else 0
  }

  predicate InOrder(nows: seq<nat>) {
    forall i, j | 0 <= i < j < |nows| :: nows[i] <= nows[j]
  }

  /** `queue` is what is left of `history` when everything a window older than `now` is dropped. */
  ghost predicate Trimmed(history: seq<nat>, queue: seq<nat>, now: nat) {
    && |queue| <= |history| && history[|history| - |queue|..] == queue && InOrder(history)
    && (forall i | 0 <= i < |history| :: history[i] <= now)
    && (forall i | 0 <= i < |history| - |queue| :: now - history[i] >= WINDOW)
  }

  /** Pruning later leaves exactly the recent part of an ordered history. */
  lemma {:induction false} PruneTrims(history: seq<nat>, queue: seq<nat>, before: nat, now: nat)
    requires Trimmed(history, queue, before) && before <= now
    ensures Trimmed(history, Prune(queue, now), now)
    ensures |Prune(queue, now)| == Recent(history, now)
    decreases |queue|
  {
    var dropped := |history| - |queue|;
    if queue != [] && Age(now, queue[0]) >= WINDOW {
      assert history[dropped] == queue[0];
      assert history[dropped + 1..] == queue[1..];
      PruneTrims(history, queue[1..], now, now);
    } else {
      CountsTail(history, dropped, now);
    }
  }

  lemma {:induction false} CountsTail(history: seq<nat>, dropped: nat, now: nat)
    requires dropped <= |history| && InOrder(history) && forall i | 0 <= i < |history| :: history[i] <= now
    requires forall i | 0 <= i < dropped :: now - history[i] >= WINDOW
    requires dropped < |history| ==> now - history[dropped] < WINDOW
    ensures Recent(history, now) == |history| - dropped
    decreases |history|
  {
    if history != [] {
      var front := history[..|history| - 1];
      assert forall i | 0 <= i < |front| :: front[i] == history[i];
      CountsTail(front, if dropped <= |front| then dropped else |front|, now);
    }
  }

  lemma EntryTrims(history: seq<nat>, queue: seq<nat>, now: nat)
    requires Trimmed(history, queue, now)
    ensures Trimmed(history + [now], queue + [now], now)
  {
    assert (history + [now])[|history| - |queue|..] == history[|history| - |queue|..] + [now];
  }

  lemma {:induction false} QueueTrims(nows: seq<nat>)
    requires InOrder(nows) && nows != []
    ensures Trimmed(LetIn(nows), Queue(nows), nows[|nows| - 1])
  {
    hide Prune, Recent, Trimmed;
    var before, now := nows[..|nows| - 1], nows[|nows| - 1];
    var history, queue := LetIn(before), Queue(before);
    if before == [] {
      NothingTrims(now);
    } else {
      QueueTrims(before);
      PruneTrims(history, queue, before[|before| - 1], now);
    }
    EntryTrims(history, Prune(queue, now), now);
    assert history + [] == history;
  }

  lemma NothingTrims(now: nat)
    ensures Prune([], now) == [] && Trimmed([], Prune([], now), now)
  {
  }

  /** In lock order the pruned queue decides as counting over the whole history would: an attempt is let in
      exactly when fewer than 30 earlier admitted ones are less than 60 seconds old. */
  lemma QueueCountsHistory(nows: seq<nat>, now: nat)
    requires InOrder(nows + [now])
    ensures Admits(Queue(nows), now) <==> Recent(LetIn(nows), now) < 30
  {
    assert forall i | 0 <= i < |nows| :: nows[i] == (nows + [now])[i];
    if nows != [] {
      assert (nows + [now])[|nows| - 1] <= (nows + [now])[|nows|];
      QueueTrims(nows);
      PruneTrims(LetIn(nows), Queue(nows), nows[|nows| - 1], now);
    }
  }

  // ---------------------------------------------------------------- calls in any order

  /** `n` attempts at the first instant. */
  function Burst(n: nat): (r: seq<nat>)
    ensures |r| == n && forall i | 0 <= i < n :: r[i] == 0
  {
    if n == 0 then [] else Burst(n - 1) + [0]
  }

  lemma {:induction false} BurstFills(n: nat)
    requires n <= 30
    ensures LetIn(Burst(n)) == Burst(n) && Queue(Burst(n)) == Burst(n)
  {
    if n > 0 {
      BurstFills(n - 1);
      assert Burst(n)[..n - 1] == Burst(n - 1);
      assert Prune(Burst(n - 1), 0) == Burst(n - 1);
    }
  }

  /** No reading is more than `skew` behind one that took the lock before it. */
  predicate Skewed(nows: seq<nat>, skew: nat) {
    forall i, j | 0 <= i < j < |nows| :: nows[i] <= nows[j] + skew
  }

  /** `queue` is the end of `history`, and some reading saw each dropped entry a window old. */
  ghost predicate Seen(nows: seq<nat>, history: seq<nat>, queue: seq<nat>) {
    && |queue| <= |history| && history[|history| - |queue|..] == queue
    && (forall i | 0 <= i < |history| - |queue| :: SeenOld(nows, history[i]))
  }

  ghost predicate SeenOld(nows: seq<nat>, entry: nat) {
    exists k :: 0 <= k < |nows| && nows[k] >= entry + WINDOW
  }

  lemma {:induction false} PruneSeen(nows: seq<nat>, history: seq<nat>, queue: seq<nat>, now: nat)
    requires Seen(nows, history, queue) && now in nows
    ensures Seen(nows, history, Prune(queue, now))
    decreases |queue|
  {
    if queue != [] && Age(now, queue[0]) >= WINDOW {
      var k :| 0 <= k < |nows| && nows[k] == now;
      assert history[|history| - |queue|] == queue[0] && SeenOld(nows, queue[0]);
      assert history[|history| - |queue| + 1..] == queue[1..];
      PruneSeen(nows, history, queue[1..], now);
    }
  }

  lemma SeenLater(nows: seq<nat>, now: nat, history: seq<nat>, queue: seq<nat>)
    requires Seen(nows, history, queue)
    ensures Seen(nows + [now], history, queue)
  {
    forall i | 0 <= i < |history| - |queue|
      ensures SeenOld(nows + [now], history[i])
    {
      assert SeenOld(nows, history[i]);
      var k :| 0 <= k < |nows| && nows[k] >= history[i] + WINDOW;
      assert (nows + [now])[k] == nows[k];
    }
  }

  lemma SeenEntry(nows: seq<nat>, history: seq<nat>, queue: seq<nat>, now: nat)
    requires Seen(nows, history, queue)
    ensures Seen(nows, history + [now], queue + [now])
  {
    assert (history + [now])[|history| - |queue|..] == history[|history| - |queue|..] + [now];
    forall i | 0 <= i < |history| - |queue|
      ensures SeenOld(nows, (history + [now])[i])
    {
      assert SeenOld(nows, history[i]);
    }
  }

  /** Before the last call enters its own instant. */
  lemma {:induction false} QueueSeen(nows: seq<nat>)
    requires nows != []
    ensures var before, now := nows[..|nows| - 1], nows[|nows| - 1];
      Seen(nows, LetIn(before), Prune(Queue(before), now))
    ensures Seen(nows, LetIn(nows), Queue(nows))
  {
    hide Prune, Seen;
    var before, now := nows[..|nows| - 1], nows[|nows| - 1];
    assert nows == before + [now];
    if before == [] {
      NothingSeen(before);
    } else {
      QueueSeen(before);
    }
    SeenLater(before, now, LetIn(before), Queue(before));
    PruneSeen(nows, LetIn(before), Queue(before), now);
    SeenEntry(nows, LetIn(before), Prune(Queue(before), now), now);
    assert LetIn(before) + [] == LetIn(before);
  }

  lemma NothingSeen(nows: seq<nat>)
    ensures Seen(nows, [], [])
  {
  }

  /** In whatever order the calls take the lock: if no reading is more than `skew` behind an earlier one, any 31
      consecutive admitted attempts span at least 60 seconds less the skew. */
  lemma {:induction false} SkewShortensTheWindow(nows: seq<nat>, skew: nat, i: nat)
    requires Skewed(nows, skew) && i + 30 < |LetIn(nows)|
    ensures LetIn(nows)[i + 30] + skew >= LetIn(nows)[i] + WINDOW
    decreases |nows|
  {
    hide Prune, Queue, Seen;
    var before, now := nows[..|nows| - 1], nows[|nows| - 1];
    var history := LetIn(before);
    if i + 30 < |history| {
      SkewShortensTheWindow(before, skew, i);
    } else {
      assert LetIn(nows) == history + [now];
      QueueSeen(nows);
      ThirtiethWasSeen(nows, history, Prune(Queue(before), now), i);
      var k :| 0 <= k < |nows| && nows[k] >= history[i] + WINDOW;
    }
  }

  lemma ThirtiethWasSeen(nows: seq<nat>, history: seq<nat>, queue: seq<nat>, i: nat)
    requires Seen(nows, history, queue) && i + 30 == |history| && |queue| < 30
    ensures SeenOld(nows, history[i])
  {
  }

  /** In lock order nothing is lost. */
  lemma ThirtyOneSpanTheWindow(nows: seq<nat>, i: nat)
    requires InOrder(nows) && i + 30 < |LetIn(nows)|
    ensures LetIn(nows)[i + 30] - LetIn(nows)[i] >= WINDOW
  {
    SkewShortensTheWindow(nows, 0, i);
  }

  /** The bound is tight for every skew up to the window: a reading that is overtaken by `skew` is let in just
      then, and together with it 31 admitted attempts are recent. */
  lemma OvertakingBreaksTheBound(skew: nat)
    requires 0 < skew <= WINDOW
    ensures var nows := Burst(30) + [WINDOW, WINDOW - skew];
      && Skewed(nows, skew) && |LetIn(nows)| == 32 && LetIn(nows)[31] + skew == LetIn(nows)[1] + WINDOW
      && Recent(LetIn(nows[..31]), WINDOW - skew) == 31
  {
    var burst := Burst(30);
    BurstFills(30);
    var first := burst + [WINDOW];
    var nows := burst + [WINDOW, WINDOW - skew];
    assert nows[..31] == first && first[..30] == burst;
    AllPruned(burst);
    assert Queue(first) == [] + [WINDOW];
    assert LetIn(first) == burst + [WINDOW];
    assert LetIn(first)[..30] == burst;
    BurstIsRecent(30, WINDOW - skew);
    assert Prune([WINDOW], WINDOW - skew) == [WINDOW];
    assert LetIn(nows) == burst + [WINDOW] + [WINDOW - skew];
  }

  lemma {:induction false} BurstIsRecent(n: nat, now: nat)
    requires now < WINDOW
    ensures Recent(Burst(n), now) == n
  {
    if n > 0 {
      BurstIsRecent(n - 1, now);
      assert Burst(n)[..n - 1] == Burst(n - 1);
    }
  }

  lemma {:induction false} AllPruned(queue: seq<nat>)
    requires forall i | 0 <= i < |queue| :: queue[i] == 0
    ensures Prune(queue, WINDOW) == []
  {
    if queue != [] {
      AllPruned(queue[1..]);
    }
  }

  // ---------------------------------------------------------------- the queue itself

  class Auth {
    var attempts: seq<nat>

    constructor ()
      ensures attempts == []
    {
      attempts := [];
    }

    /** The admission part of `verify`, under the lock. */
    method Attempt(now: nat) returns (admitted: bool)
      modifies this`attempts
      ensures admitted == Admits(old(attempts), now) && attempts == Enter(old(attempts), now)
    {
      while attempts != [] && Age(now, attempts[0]) >= WINDOW
        invariant Prune(attempts, now) == Prune(old(attempts), now)
        decreases |attempts|
      {
        attempts := attempts[1..];
      }
      if |attempts| >= ATTEMPTS { return false; }
      attempts := attempts + [now];
      return true;
    }
  }
}
