/** Folding a bundle's timelocks into one window (src/mempool/submit.rs:288-374). */
module Timelocks {
  import opened Prelude
  import opened Items
  import opened Rbf

  datatype SpendCondition = SpendCondition(
    coin: CoinId,
    heightRelative: Option<U32>, secondsRelative: Option<U64>,
    beforeHeightRelative: Option<U32>, beforeSecondsRelative: Option<U64>)

  datatype Conditions = Conditions(
    heightAbsolute: U32, secondsAbsolute: U64,
    beforeHeightAbsolute: Option<U32>, beforeSecondsAbsolute: Option<U64>,
    spends: seq<SpendCondition>)

  datatype CoinRecord = CoinRecord(confirmedIndex: U32, timestamp: U64)

  /** The resolved absolute bounds: lower bounds inclusive, upper bounds exclusive. */
  datatype Window = Window(assertHeight: Option<U64>, assertSeconds: Option<U64>,
                           beforeHeight: Option<U64>, beforeSeconds: Option<U64>)

  predicate AtLeast(bound: Option<U64>, now: U64) { bound.Some? ==> bound.value <= now }
  predicate Before(bound: Option<U64>, now: U64) { bound.Some? ==> now < bound.value }

  /** `sel_002_is_selectable` on the resolved bounds. */
  predicate OpenAt(w: Window, height: U64, timestamp: U64) {
    && Before(w.beforeHeight, height) && Before(w.beforeSeconds, timestamp)
    && AtLeast(w.assertHeight, height) && AtLeast(w.assertSeconds, timestamp)
  }

  // ── What the locks mean, one by one ──

  function BaseHeight(records: map<CoinId, CoinRecord>, coin: CoinId, height: U64): U64 {
    if coin in records then records[coin].confirmedIndex else height
  }

  function BaseTime(records: map<CoinId, CoinRecord>, coin: CoinId, timestamp: U64): U64 {
    if coin in records then records[coin].timestamp else timestamp
  }

  /** All locks of one spend hold at (h, t), its coin having confirmed at (bh, bt). */
  ghost predicate SpendHolds(s: SpendCondition, bh: U64, bt: U64, h: U64, t: U64) {
    && (s.heightRelative.Some? ==> bh + s.heightRelative.value <= h)
    && (s.secondsRelative.Some? ==> bt + s.secondsRelative.value <= t)
    && (s.beforeHeightRelative.Some? ==> h < bh + s.beforeHeightRelative.value)
    && (s.beforeSecondsRelative.Some? ==> t < bt + s.beforeSecondsRelative.value)
  }

  ghost predicate AbsoluteHolds(c: Conditions, h: U64, t: U64) {
    && c.heightAbsolute <= h && c.secondsAbsolute <= t
    && (c.beforeHeightAbsolute.Some? ==> h < c.beforeHeightAbsolute.value)
    && (c.beforeSecondsAbsolute.Some? ==> t < c.beforeSecondsAbsolute.value)
  }

  /** Every lock of the bundle holds at (h, t); unknown coins count as confirmed at (now, time). */
  ghost predicate AllHold(c: Conditions, records: map<CoinId, CoinRecord>, now: U64, time: U64, h: U64, t: U64) {
    && AbsoluteHolds(c, h, t)
    && forall s :: s in c.spends ==> SpendHolds(s, BaseHeight(records, s.coin, now), BaseTime(records, s.coin, time), h, t)
  }

  /** No sum leaves the u64 range. */
  ghost predicate InRange(s: SpendCondition, bh: U64, bt: U64) {
    && (s.heightRelative.Some? ==> bh + s.heightRelative.value <= U64_MAX)
    && (s.secondsRelative.Some? ==> bt + s.secondsRelative.value <= U64_MAX)
    && (s.beforeHeightRelative.Some? ==> bh + s.beforeHeightRelative.value <= U64_MAX)
    && (s.beforeSecondsRelative.Some? ==> bt + s.beforeSecondsRelative.value <= U64_MAX)
  }

  ghost predicate AllInRange(c: Conditions, records: map<CoinId, CoinRecord>, now: U64, time: U64) {
    forall s :: s in c.spends ==> InRange(s, BaseHeight(records, s.coin, now), BaseTime(records, s.coin, time))
  }

  // ── Folding ──

  function Later(a: Option<U64>, b: U64): Option<U64> {
    if a.Some? && a.value > b then a else Some(b)
  }

  function Earlier(a: Option<U64>, b: U64): Option<U64> {
    if a.Some? && a.value < b then a else Some(b)
  }

  /** One round of the loop over spends. */
  function Fold(w: Window, s: SpendCondition, bh: U64, bt: U64): Window {
    Window(
      if s.heightRelative.Some? then Later(w.assertHeight, Wrap(bh + s.heightRelative.value)) else w.assertHeight,
      if s.secondsRelative.Some? then Later(w.assertSeconds, Wrap(bt + s.secondsRelative.value)) else w.assertSeconds,
      if s.beforeHeightRelative.Some? then Earlier(w.beforeHeight, Wrap(bh + s.beforeHeightRelative.value)) else w.beforeHeight,
      if s.beforeSecondsRelative.Some? then Earlier(w.beforeSeconds, Wrap(bt + s.beforeSecondsRelative.value)) else w.beforeSeconds)
  }

  function Absolute(c: Conditions): Window {
    Window(
      if c.heightAbsolute > 0 then Some(c.heightAbsolute) else None,
      if c.secondsAbsolute > 0 then Some(c.secondsAbsolute) else None,
      if c.beforeHeightAbsolute.Some? then Some(c.beforeHeightAbsolute.value) else None,
      if c.beforeSecondsAbsolute.Some? then Some(c.beforeSecondsAbsolute.value) else None)
  }

  /** The window after the first `n` spends, wrap-around included. */
  function Folded(c: Conditions, records: map<CoinId, CoinRecord>, now: U64, time: U64, n: nat): Window
    requires n <= |c.spends|
  {
    if n == 0 then Absolute(c) else
      var s := c.spends[n - 1];
      Fold(Folded(c, records, now, time, n - 1), s, BaseHeight(records, s.coin, now), BaseTime(records, s.coin, time))
  }

  /** Folding one spend narrows the window by exactly that spend's locks. */
  lemma FoldMeans(w: Window, s: SpendCondition, bh: U64, bt: U64, h: U64, t: U64)
    requires InRange(s, bh, bt)
    ensures OpenAt(Fold(w, s, bh, bt), h, t) <==> OpenAt(w, h, t) && SpendHolds(s, bh, bt, h, t)
  {
  }

  /** The folded window is open exactly when every lock seen so far holds. */
  ghost predicate Means(w: Window, c: Conditions, records: map<CoinId, CoinRecord>, now: U64, time: U64, n: nat)
    requires n <= |c.spends|
  {
    forall h: U64, t: U64 :: OpenAt(w, h, t) <==> AllHold(c.(spends := c.spends[..n]), records, now, time, h, t)
  }

  lemma MeansStep(w: Window, c: Conditions, records: map<CoinId, CoinRecord>, now: U64, time: U64, n: nat)
    requires n < |c.spends| && AllInRange(c, records, now, time) && Means(w, c, records, now, time, n)
    ensures var s := c.spends[n];
      Means(Fold(w, s, BaseHeight(records, s.coin, now), BaseTime(records, s.coin, time)), c, records, now, time, n + 1)
  {
    var s := c.spends[n];
    var bh, bt := BaseHeight(records, s.coin, now), BaseTime(records, s.coin, time);
    assert c.spends[..n + 1] == c.spends[..n] + [s];
    forall h: U64, t: U64
      ensures OpenAt(Fold(w, s, bh, bt), h, t) <==> AllHold(c.(spends := c.spends[..n + 1]), records, now, time, h, t)
    {
      assert s in c.spends;
      FoldMeans(w, s, bh, bt, h, t);
      assert forall x :: x in c.spends[..n + 1] <==> x in c.spends[..n] || x == s;
    }
  }

  /**
   * Barring wrap-around, the folded window is open at (h, t) if and only if every absolute and
   * every relative lock of the bundle holds at (h, t).
   */
  lemma FoldingKeepsMeaning(c: Conditions, records: map<CoinId, CoinRecord>, now: U64, time: U64)
    requires AllInRange(c, records, now, time)
    ensures forall h: U64, t: U64 ::
      OpenAt(Folded(c, records, now, time, |c.spends|), h, t) <==> AllHold(c, records, now, time, h, t)
  {
    FoldedMeans(c, records, now, time, |c.spends|);
    assert c.(spends := c.spends[..|c.spends|]) == c;
  }

  lemma {:induction false} FoldedMeans(c: Conditions, records: map<CoinId, CoinRecord>, now: U64, time: U64, n: nat)
    requires n <= |c.spends| && AllInRange(c, records, now, time)
    ensures Means(Folded(c, records, now, time, n), c, records, now, time, n)
  {
    if n > 0 {
      FoldedMeans(c, records, now, time, n - 1);
      MeansStep(Folded(c, records, now, time, n - 1), c, records, now, time, n - 1);
    }
  }

  /**
   * Every lock of the bundle holds at (h, t), written out: a relative lock counts from where its coin was confirmed
   * if the records have the coin, and else from the height and time of the submission.
   */
  ghost predicate LocksHold(c: Conditions, records: map<CoinId, CoinRecord>, now: U64, time: U64, h: U64, t: U64) {
    && c.heightAbsolute <= h && c.secondsAbsolute <= t
    && (c.beforeHeightAbsolute.Some? ==> h < c.beforeHeightAbsolute.value)
    && (c.beforeSecondsAbsolute.Some? ==> t < c.beforeSecondsAbsolute.value)
    && forall s :: s in c.spends ==>
      && (s.coin in records && s.heightRelative.Some? ==> records[s.coin].confirmedIndex + s.heightRelative.value <= h)
      && (s.coin !in records && s.heightRelative.Some? ==> now + s.heightRelative.value <= h)
      && (s.coin in records && s.secondsRelative.Some? ==> records[s.coin].timestamp + s.secondsRelative.value <= t)
      && (s.coin !in records && s.secondsRelative.Some? ==> time + s.secondsRelative.value <= t)
      && (s.coin in records && s.beforeHeightRelative.Some? ==> h < records[s.coin].confirmedIndex + s.beforeHeightRelative.value)
      && (s.coin !in records && s.beforeHeightRelative.Some? ==> h < now + s.beforeHeightRelative.value)
      && (s.coin in records && s.beforeSecondsRelative.Some? ==> t < records[s.coin].timestamp + s.beforeSecondsRelative.value)
      && (s.coin !in records && s.beforeSecondsRelative.Some? ==> t < time + s.beforeSecondsRelative.value)
  }

  /** No such sum leaves the u64 range. */
  ghost predicate LocksInRange(c: Conditions, records: map<CoinId, CoinRecord>, now: U64, time: U64) {
    forall s :: s in c.spends ==>
      && (s.coin !in records && s.heightRelative.Some? ==> now + s.heightRelative.value <= U64_MAX)
      && (s.coin in records && s.secondsRelative.Some? ==> records[s.coin].timestamp + s.secondsRelative.value <= U64_MAX)
      && (s.coin !in records && s.secondsRelative.Some? ==> time + s.secondsRelative.value <= U64_MAX)
      && (s.coin !in records && s.beforeHeightRelative.Some? ==> now + s.beforeHeightRelative.value <= U64_MAX)
      && (s.coin in records && s.beforeSecondsRelative.Some? ==> records[s.coin].timestamp + s.beforeSecondsRelative.value <= U64_MAX)
      && (s.coin !in records && s.beforeSecondsRelative.Some? ==> time + s.beforeSecondsRelative.value <= U64_MAX)
  }

  lemma RangesAgree(c: Conditions, records: map<CoinId, CoinRecord>, now: U64, time: U64)
    requires LocksInRange(c, records, now, time)
    ensures AllInRange(c, records, now, time)
  {
  }

  lemma LocksAgree(c: Conditions, records: map<CoinId, CoinRecord>, now: U64, time: U64, h: U64, t: U64)
    ensures AllHold(c, records, now, time, h, t) <==> LocksHold(c, records, now, time, h, t)
  {
  }

  /** Barring wrap-around, the resolved window says exactly what the locks of the bundle say. */
  lemma ResolvedMeans(c: Conditions, records: map<CoinId, CoinRecord>, now: U64, time: U64, w: Window, h: U64, t: U64)
    requires LocksInRange(c, records, now, time) && w == Folded(c, records, now, time, |c.spends|)
    ensures LocksHold(c, records, now, time, h, t) <==>
      && (w.assertHeight.Some? ==> w.assertHeight.value <= h) && (w.assertSeconds.Some? ==> w.assertSeconds.value <= t)
      && (w.beforeHeight.Some? ==> h < w.beforeHeight.value) && (w.beforeSeconds.Some? ==> t < w.beforeSeconds.value)
  {
    RangesAgree(c, records, now, time);
    FoldingKeepsMeaning(c, records, now, time);
    LocksAgree(c, records, now, time, h, t);
  }

  /** At `now`, the folded bound `base + relative` says what the lock says. */
  ghost predicate LowerAgrees(base: U64, relative: U64, now: U64) {
    AtLeast(Later(None, Wrap(base + relative)), now) <==> base + relative <= now
  }

  ghost predicate UpperAgrees(base: U64, relative: U64, now: U64) {
    Before(Earlier(None, Wrap(base + relative)), now) <==> now < base + relative
  }

  /** A single relative lower bound keeps its meaning exactly when its sum stays in the u64 range. */
  lemma LowerLockExactIff(base: U64, relative: U64)
    ensures (forall now: U64 :: LowerAgrees(base, relative, now)) <==> base + relative <= U64_MAX
  {
    assert base + relative > U64_MAX ==> !LowerAgrees(base, relative, U64_MAX);
  }

  /** So does a single relative upper bound: a wrapped one closes the window early. */
  lemma UpperLockExactIff(base: U64, relative: U64)
    ensures (forall now: U64 :: UpperAgrees(base, relative, now)) <==> base + relative <= U64_MAX
  {
    assert base + relative > U64_MAX ==> !UpperAgrees(base, relative, U64_MAX);
  }

  method Resolve(c: Conditions, records: map<CoinId, CoinRecord>, now: U64, time: U64) returns (w: Window)
    ensures w == Folded(c, records, now, time, |c.spends|)
  {
    w := Absolute(c);
    for i := 0 to |c.spends|
      invariant w == Folded(c, records, now, time, i)
    {
      var s := c.spends[i];
      var confirmed, timestamp := now, time;
      if s.coin in records {
        confirmed, timestamp := records[s.coin].confirmedIndex, records[s.coin].timestamp;
      }
      w := ResolveSpend(w, s, confirmed, timestamp);
    }
  }

  method ResolveSpend(before: Window, s: SpendCondition, confirmed: U64, timestamp: U64) returns (w: Window)
    ensures w == Fold(before, s, confirmed, timestamp)
  {
    w := before;
    if s.heightRelative.Some? {
      w := w.(assertHeight := Later(w.assertHeight, Wrap(confirmed + s.heightRelative.value)));
    }
    if s.secondsRelative.Some? {
      w := w.(assertSeconds := Later(w.assertSeconds, Wrap(timestamp + s.secondsRelative.value)));
    }
    if s.beforeHeightRelative.Some? {
      w := w.(beforeHeight := Earlier(w.beforeHeight, Wrap(confirmed + s.beforeHeightRelative.value)));
    }
    if s.beforeSecondsRelative.Some? {
      w := w.(beforeSeconds := Earlier(w.beforeSeconds, Wrap(timestamp + s.beforeSecondsRelative.value)));
    }
  }

  // ── Routing ──

  datatype Route = Rejected(error: MempoolError) | Pending | Active

  predicate Crossed(low: Option<U64>, high: Option<U64>) { low.Some? && high.Some? && high.value <= low.value }

  /** Impossible, expired, pending or active, in the order the checks are made. */
  function Routed(w: Window, now: U64, time: U64): Route {
    if Crossed(w.assertHeight, w.beforeHeight) then Rejected(ImpossibleTimelocks)
    else if Crossed(w.assertSeconds, w.beforeSeconds) then Rejected(ImpossibleTimelocks)
    else if w.beforeHeight.Some? && now >= w.beforeHeight.value then Rejected(Expired)
    else if w.beforeSeconds.Some? && time >= w.beforeSeconds.value then Rejected(Expired)
    else if (w.assertHeight.Some? && w.assertHeight.value > now) || (w.assertSeconds.Some? && w.assertSeconds.value > time)
    then Pending
    else Active
  }

  /** Every answer, and exactly when it is given. */
  lemma RoutedMeans(w: Window, now: U64, time: U64)
    ensures var r := Routed(w, now, time);
      var empty := || (w.assertHeight.Some? && w.beforeHeight.Some? && w.beforeHeight.value <= w.assertHeight.value)
                   || (w.assertSeconds.Some? && w.beforeSeconds.Some? && w.beforeSeconds.value <= w.assertSeconds.value);
      var past := || (w.beforeHeight.Some? && w.beforeHeight.value <= now) || (w.beforeSeconds.Some? && w.beforeSeconds.value <= time);
      var early := || (w.assertHeight.Some? && now < w.assertHeight.value) || (w.assertSeconds.Some? && time < w.assertSeconds.value);
      && (r == Rejected(ImpossibleTimelocks) <==> empty)
      && (r == Rejected(Expired) <==> !empty && past)
      && (r == Pending <==> !empty && !past && early)
      && (r == Active <==> !empty && !past && !early)
  {
  }

  /** A bundle goes straight to the active pool exactly when it could be mined right now. */
  lemma ActiveIffOpenNow(w: Window, now: U64, time: U64)
    ensures Routed(w, now, time).Active? <==> OpenAt(w, now, time)
  {
  }

  /** It is turned away exactly when it can never be mined from now on. */
  lemma RejectedIffNeverOpen(w: Window, now: U64, time: U64)
    ensures Routed(w, now, time).Rejected? <==> forall h: U64, t: U64 :: now <= h && time <= t ==> !OpenAt(w, h, t)
  {
    var h: U64 := if w.assertHeight.Some? && w.assertHeight.value > now then w.assertHeight.value else now;
    var t: U64 := if w.assertSeconds.Some? && w.assertSeconds.value > time then w.assertSeconds.value else time;
    if !Routed(w, now, time).Rejected? {
      assert OpenAt(w, h, t);
    }
  }
}
