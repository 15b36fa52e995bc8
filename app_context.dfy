/** The state-update rules of the application context: the list of enabled
    chart indicators, the per-symbol price-alert thresholds, the comparisons
    that decide which alerts fire after a price refresh, and the number of
    history points fetched for a time range. */
module AppContext {
  import opened SeriesMath

  datatype CryptoSymbol = XRP | ADA | DOGE | MATIC | UNI

  datatype Indicator = Bollinger | Macd | Rsi | Ma | Ema

  /** "1d", "7d", "30d", "90d", "1y", "max". */
  datatype TimeRange = OneDay | SevenDays | ThirtyDays | NinetyDays | OneYear | All

  datatype AlertType = Above | Below

  // ---------------------------------------------------------------------------
  // Enabled indicators

  /** The indicators shown when the application starts. */
  const InitialIndicators: seq<Indicator> := [Bollinger, Rsi]

  /** `prev.filter(ind => ind !== indicator)`. */
  function Without(prev: seq<Indicator>, indicator: Indicator): (r: seq<Indicator>)
    ensures |r| <= |prev|
    ensures forall x :: x in r <==> x in prev && x != indicator
  {
    if prev == [] then []
    else (if prev[0] == indicator then [] else [prev[0]]) + Without(prev[1..], indicator)
  }

  /** The updater of `toggleIndicator`: drop the indicator if it is enabled,
      otherwise append it. */
  function ToggleIndicator(prev: seq<Indicator>, indicator: Indicator): (next: seq<Indicator>)
    ensures indicator in next <==> indicator !in prev
    ensures forall other :: other != indicator ==> (other in next <==> other in prev)
  {
    if indicator in prev then Without(prev, indicator) else prev + [indicator]
  }

  /** From the initial chart indicators, toggling an absent one appends it
      and toggling a present one drops it. */
  lemma {:induction false} InitialToggles()
    ensures ToggleIndicator(InitialIndicators, Ema) == [Bollinger, Rsi, Ema]
    ensures ToggleIndicator(InitialIndicators, Rsi) == [Bollinger]
    ensures ToggleIndicator(ToggleIndicator(InitialIndicators, Macd), Macd) == InitialIndicators
  {
    ToggleTwiceRestores(InitialIndicators, Macd);
    assert Without([Rsi], Rsi) == [];
    assert Without([Bollinger, Rsi], Rsi) == [Bollinger] + Without([Rsi], Rsi);
  }

  /** `a` is `b` with some entries left out, the rest in their original order. */
  predicate IsSubsequence<T(==)>(a: seq<T>, b: seq<T>)
  {
    if a == [] then true
    else if b == [] then false
    else if a[0] == b[0] then IsSubsequence(a[1..], b[1..])
    else IsSubsequence(a, b[1..])
  }

  /** Filtering keeps the order of what it keeps. */
  lemma {:induction false} WithoutSubsequence(prev: seq<Indicator>, indicator: Indicator)
    ensures IsSubsequence(Without(prev, indicator), prev)
  {
    if prev != [] {
      WithoutSubsequence(prev[1..], indicator);
      var rest := Without(prev[1..], indicator);
      if prev[0] != indicator {
        assert Without(prev, indicator) == [prev[0]] + rest;
        assert ([prev[0]] + rest)[1..] == rest;
      } else {
        assert Without(prev, indicator) == rest;
        SubsequenceOfTail(rest, prev);
      }
    }
  }

  /** Filtering removes every occurrence of the indicator and keeps every
      other indicator as often as it was there. */
  lemma {:induction false} WithoutCounts(prev: seq<Indicator>, indicator: Indicator)
    ensures multiset(Without(prev, indicator))[indicator] == 0
    ensures forall x :: x != indicator ==> multiset(Without(prev, indicator))[x] == multiset(prev)[x]
  {
    if prev != [] {
      var tail := prev[1..];
      WithoutCounts(tail, indicator);
      var head: seq<Indicator> := if prev[0] == indicator then [] else [prev[0]];
      var rest := Without(tail, indicator);
      assert prev == [prev[0]] + tail;
      assert Without(prev, indicator) == head + rest;
      assert multiset(Without(prev, indicator)) == multiset(head) + multiset(rest);
      assert multiset(prev) == multiset([prev[0]]) + multiset(tail);
      assert multiset(head)[indicator] == 0;
      forall x | x != indicator
        ensures multiset(Without(prev, indicator))[x] == multiset(prev)[x]
      {
        assert multiset(head)[x] == multiset([prev[0]])[x];
      }
    }
  }

  /** A subsequence of the tail of `b` is a subsequence of `b`. */
  lemma {:induction false} SubsequenceOfTail<T>(a: seq<T>, b: seq<T>)
    requires b != [] && IsSubsequence(a, b[1..])
    ensures IsSubsequence(a, b)
    decreases |a| + |b|
  {
    if a != [] && a[0] == b[0] {
      SubsequenceDropHead(a, b[1..]);
    }
  }

  /** Dropping the head of a subsequence leaves a subsequence. */
  lemma {:induction false} SubsequenceDropHead<T>(a: seq<T>, c: seq<T>)
    requires a != [] && IsSubsequence(a, c)
    ensures IsSubsequence(a[1..], c)
    decreases |a| + |c|
  {
    if a[0] == c[0] {
      SubsequenceOfTail(a[1..], c);
    } else {
      SubsequenceDropHead(a, c[1..]);
      SubsequenceOfTail(a[1..], c);
    }
  }

  /** Toggling an enabled indicator removes every occurrence of it and keeps
      the other entries, each as often as before, in their original order. */
  lemma {:induction false} ToggleRemoves(prev: seq<Indicator>, indicator: Indicator)
    requires indicator in prev
    ensures var next := ToggleIndicator(prev, indicator);
      && indicator !in next
      && IsSubsequence(next, prev)
      && (forall x :: x != indicator ==> multiset(next)[x] == multiset(prev)[x])
  {
    WithoutSubsequence(prev, indicator);
    WithoutCounts(prev, indicator);
  }

  /** Toggling a disabled indicator appends it and leaves the earlier entries
      as they were. */
  lemma {:induction false} ToggleAppends(prev: seq<Indicator>, indicator: Indicator)
    requires indicator !in prev
    ensures var next := ToggleIndicator(prev, indicator);
      |next| == |prev| + 1 && next[..|prev|] == prev && next[|prev|] == indicator
  {
  }

  /** Filtering out an indicator that does not occur changes nothing. */
  lemma {:induction false} WithoutAbsent(prev: seq<Indicator>, indicator: Indicator)
    requires indicator !in prev
    ensures Without(prev, indicator) == prev
  {
    if prev != [] {
      WithoutAbsent(prev[1..], indicator);
    }
  }

  /** Filtering distributes over an append at the back. */
  lemma {:induction false} WithoutAppend(prev: seq<Indicator>, x: Indicator, indicator: Indicator)
    ensures Without(prev + [x], indicator) == Without(prev, indicator) + Without([x], indicator)
  {
    var last := Without([x], indicator);
    if prev == [] {
      assert prev + [x] == [x];
    } else {
      var rest := prev[1..];
      var head: seq<Indicator> := if prev[0] == indicator then [] else [prev[0]];
      assert (prev + [x])[0] == prev[0];
      assert (prev + [x])[1..] == rest + [x];
      WithoutAppend(rest, x, indicator);
      calc {
        Without(prev + [x], indicator);
        head + Without(rest + [x], indicator);
        head + (Without(rest, indicator) + last);
        (head + Without(rest, indicator)) + last;
        Without(prev, indicator) + last;
      }
    }
  }

  /** Toggling a disabled indicator twice restores the list. */
  lemma {:induction false} ToggleTwiceRestores(prev: seq<Indicator>, indicator: Indicator)
    requires indicator !in prev
    ensures ToggleIndicator(ToggleIndicator(prev, indicator), indicator) == prev
  {
    WithoutAppend(prev, indicator, indicator);
    WithoutAbsent(prev, indicator);
    assert Without([indicator], indicator) == [];
  }

  // ---------------------------------------------------------------------------
  // Price alerts

  /** `{ above: number | null; below: number | null }`. */
  datatype Thresholds = Thresholds(above: Option<real>, below: Option<real>)

  const NoThresholds: Thresholds := Thresholds(None, None)

  function Field(t: Thresholds, kind: AlertType): Option<real>
  {
    match kind
    case Above => t.above
    case Below => t.below
  }

  /** `{ ...current, [type]: value }`. */
  function WithField(t: Thresholds, kind: AlertType, value: Option<real>): (r: Thresholds)
    ensures Field(r, kind) == value
    ensures forall other :: other != kind ==> Field(r, other) == Field(t, other)
  {
    match kind
    case Above => t.(above := value)
    case Below => t.(below := value)
  }

  /** The alert map: a JavaScript `Map`, which remembers the order in which its
      keys were first inserted. */
  datatype Alerts = Alerts(order: seq<CryptoSymbol>, table: map<CryptoSymbol, Thresholds>)

  /** Every key occurs once in the insertion order, and the order lists
      exactly the keys of the table. */
  ghost predicate Valid(a: Alerts)
  {
    && (forall i, j :: 0 <= i < j < |a.order| ==> a.order[i] != a.order[j])
    && (forall s :: s in a.table <==> s in a.order)
  }

  /** The alert map the application starts with: every symbol, no thresholds. */
  const InitialAlerts: Alerts := Alerts(
    [XRP, ADA, DOGE, MATIC, UNI],
    map[XRP := NoThresholds, ADA := NoThresholds, DOGE := NoThresholds,
        MATIC := NoThresholds, UNI := NoThresholds])

  lemma {:induction false} InitialAlertsValid()
    ensures Valid(InitialAlerts)
    ensures forall s :: s in InitialAlerts.table && InitialAlerts.table[s] == NoThresholds
  {
    forall s
      ensures s in InitialAlerts.table <==> s in InitialAlerts.order
      ensures s in InitialAlerts.table && InitialAlerts.table[s] == NoThresholds
    {
      match s
      case XRP => assert InitialAlerts.order[0] == s;
      case ADA => assert InitialAlerts.order[1] == s;
      case DOGE => assert InitialAlerts.order[2] == s;
      case MATIC => assert InitialAlerts.order[3] == s;
      case UNI => assert InitialAlerts.order[4] == s;
    }
  }

  /** `newAlerts.get(symbol) || { above: null, below: null }`. */
  function Current(a: Alerts, symbol: CryptoSymbol): (t: Thresholds)
    ensures symbol in a.table ==> t == a.table[symbol]
    ensures symbol !in a.table ==> t.above == None && t.below == None
  {
    if symbol in a.table then a.table[symbol] else NoThresholds
  }

  /** `Map.prototype.set`: a present key keeps its place, a new key goes last. */
  function MapSet(a: Alerts, symbol: CryptoSymbol, t: Thresholds): (r: Alerts)
    requires Valid(a)
    ensures Valid(r)
  {
    if symbol in a.table then Alerts(a.order, a.table[symbol := t])
    else Alerts(a.order + [symbol], a.table[symbol := t])
  }

  /** The updater of `setAlert`: copy the map, then set the one field. */
  function SetAlert(prev: Alerts, symbol: CryptoSymbol, kind: AlertType, value: Option<real>): (next: Alerts)
    requires Valid(prev)
    ensures Valid(next)
  {
    var current := Current(prev, symbol);
    MapSet(prev, symbol, WithField(current, kind, value))
  }

  /** The updater of `removeAlert`: copy the map, then clear the one field. */
  function RemoveAlert(prev: Alerts, symbol: CryptoSymbol, kind: AlertType): (next: Alerts)
    requires Valid(prev)
    ensures Valid(next)
  {
    var current := Current(prev, symbol);
    MapSet(prev, symbol, WithField(current, kind, None))
  }

  /** `setAlert` changes only the chosen field of the chosen symbol, which
      starts from no thresholds when it is missing; every other symbol keeps
      its thresholds, and the key order changes only by a new key at the end. */
  lemma {:induction false} SetAlertChangesOneField(prev: Alerts, symbol: CryptoSymbol, kind: AlertType, value: Option<real>)
    requires Valid(prev)
    ensures var next := SetAlert(prev, symbol, kind, value);
      && symbol in next.table
      && Field(next.table[symbol], kind) == value
      && (forall other :: other != kind ==> Field(next.table[symbol], other) == Field(Current(prev, symbol), other))
      && (forall s :: s != symbol ==> (s in next.table <==> s in prev.table))
      && (forall s :: s != symbol && s in prev.table ==> next.table[s] == prev.table[s])
      && next.order == (if symbol in prev.table then prev.order else prev.order + [symbol])
  {
  }

  /** `removeAlert` acts on the map exactly as `setAlert` with `null`. */
  lemma {:induction false} RemoveAlertIsSetNull(prev: Alerts, symbol: CryptoSymbol, kind: AlertType)
    requires Valid(prev)
    ensures RemoveAlert(prev, symbol, kind) == SetAlert(prev, symbol, kind, None)
  {
  }

  /** The "above" check of the price refresh. */
  predicate AboveFires(t: Thresholds, price: real)
  {
    t.above.Some? && price > t.above.value
  }

  /** The "below" check of the price refresh. */
  predicate BelowFires(t: Thresholds, price: real)
  {
    t.below.Some? && price < t.below.value
  }

  /** Both alerts fire on one price only when both thresholds are set and the
      "above" threshold lies below the "below" threshold. */
  lemma {:induction false} BothFire(t: Thresholds, price: real)
    requires AboveFires(t, price) && BelowFires(t, price)
    ensures t.above.Some? && t.below.Some? && t.above.value < t.below.value
  {
  }

  /** Once a price fires the "above" alert, every higher price fires it too;
      once a price fires the "below" alert, every lower price does. */
  lemma {:induction false} FiresMonotone(t: Thresholds, price: real, other: real)
    ensures AboveFires(t, price) && price <= other ==> AboveFires(t, other)
    ensures BelowFires(t, price) && other <= price ==> BelowFires(t, other)
  {
  }

  /** A price equal to a threshold fires neither alert. */
  lemma {:induction false} ThresholdPriceFiresNeither(t: Thresholds, price: real)
    requires t.above == Some(price) || t.below == Some(price)
    ensures t.above == Some(price) ==> !AboveFires(t, price)
    ensures t.below == Some(price) ==> !BelowFires(t, price)
  {
  }

  /** A refreshed price of one symbol. */
  datatype Quote = Quote(symbol: CryptoSymbol, price: real)

  /** One price-alert toast: the symbol, which side was crossed, the threshold. */
  datatype Notice = Notice(symbol: CryptoSymbol, kind: AlertType, threshold: real)

  /** The toasts one refreshed price raises: "above" first, then "below". */
  function QuoteNotices(q: Quote, alerts: Alerts): (r: seq<Notice>)
    ensures |r| <= 2
    ensures forall n :: n in r ==> n.symbol == q.symbol
    ensures |r| == 2 ==> r[0].kind == Above && r[1].kind == Below
  {
    if q.symbol !in alerts.table then []
    else
      var t := alerts.table[q.symbol];
      (if AboveFires(t, q.price) then [Notice(q.symbol, Above, t.above.value)] else [])
      + (if BelowFires(t, q.price) then [Notice(q.symbol, Below, t.below.value)] else [])
  }

  /** The toasts of the whole refresh, in the order of the refreshed list. */
  function AlertNotices(updated: seq<Quote>, alerts: Alerts): (r: seq<Notice>)
    ensures |r| <= 2 * |updated|
  {
    if updated == [] then [] else QuoteNotices(updated[0], alerts) + AlertNotices(updated[1..], alerts)
  }

  /** The notices of a refresh that ends with `q` are those of the earlier
      quotes followed by those of `q`. */
  lemma {:induction false} AlertNoticesSnoc(updated: seq<Quote>, q: Quote, alerts: Alerts)
    ensures AlertNotices(updated + [q], alerts) == AlertNotices(updated, alerts) + QuoteNotices(q, alerts)
  {
    if updated == [] {
      assert [q][1..] == [];
    } else {
      assert (updated + [q])[1..] == updated[1..] + [q];
      AlertNoticesSnoc(updated[1..], q, alerts);
    }
  }

  /** The alert check of `fetchData`: one pass over the refreshed prices, in
      their order, that raises a toast for each crossed threshold. */
  method CheckAlerts(updated: seq<Quote>, alerts: Alerts) returns (notices: seq<Notice>)
    ensures notices == AlertNotices(updated, alerts)
  {
    notices := [];
    var i := 0;
    while i < |updated|
      invariant 0 <= i <= |updated|
      invariant notices == AlertNotices(updated[..i], alerts)
    {
      assert updated[..i + 1] == updated[..i] + [updated[i]];
      AlertNoticesSnoc(updated[..i], updated[i], alerts);
      notices := notices + QuoteNotices(updated[i], alerts);
      i := i + 1;
    }
    assert updated[..i] == updated;
  }

  /** The toasts of one quote: "above" with threshold `v` exactly when the
      symbol's `above` threshold is `v` and the price lies strictly above it;
      likewise for "below". */
  lemma {:induction false} QuoteNoticesExact(q: Quote, alerts: Alerts, s: CryptoSymbol, v: real)
    ensures Notice(s, Above, v) in QuoteNotices(q, alerts) <==>
      q.symbol == s && s in alerts.table && alerts.table[s].above == Some(v) && q.price > v
    ensures Notice(s, Below, v) in QuoteNotices(q, alerts) <==>
      q.symbol == s && s in alerts.table && alerts.table[s].below == Some(v) && q.price < v
  {
  }

  /** A refresh raises an "above" toast with threshold `v` for a symbol
      exactly when some refreshed price of it lies strictly above its `above`
      threshold `v`. */
  lemma {:induction false} AboveNoticesExact(updated: seq<Quote>, alerts: Alerts, s: CryptoSymbol, v: real)
    ensures Notice(s, Above, v) in AlertNotices(updated, alerts) <==>
      exists k :: 0 <= k < |updated| && updated[k].symbol == s && s in alerts.table
        && alerts.table[s].above == Some(v) && updated[k].price > v
  {
    if updated != [] {
      AboveNoticesExact(updated[1..], alerts, s, v);
      QuoteNoticesExact(updated[0], alerts, s, v);
      var rest := updated[1..];
      assert forall k :: 0 <= k < |rest| ==> rest[k] == updated[k + 1];
      assert forall k :: 1 <= k < |updated| ==> updated[k] == rest[k - 1];
    }
  }

  /** A refresh raises a "below" toast with threshold `v` for a symbol
      exactly when some refreshed price of it lies strictly below its `below`
      threshold `v`. */
  lemma {:induction false} BelowNoticesExact(updated: seq<Quote>, alerts: Alerts, s: CryptoSymbol, v: real)
    ensures Notice(s, Below, v) in AlertNotices(updated, alerts) <==>
      exists k :: 0 <= k < |updated| && updated[k].symbol == s && s in alerts.table
        && alerts.table[s].below == Some(v) && updated[k].price < v
  {
    if updated != [] {
      BelowNoticesExact(updated[1..], alerts, s, v);
      QuoteNoticesExact(updated[0], alerts, s, v);
      var rest := updated[1..];
      assert forall k :: 0 <= k < |rest| ==> rest[k] == updated[k + 1];
      assert forall k :: 1 <= k < |updated| ==> updated[k] == rest[k - 1];
    }
  }

  // ---------------------------------------------------------------------------
  // History size

  /** The number of days of history fetched for a range; "1y" and "max"
      both fall through to 365. */
  function Days(range: TimeRange): (d: nat)
    ensures 1 <= d <= 365
    ensures d == 365 <==> range == OneYear || range == All
  {
    match range
    case OneDay => 1
    case SevenDays => 7
    case ThirtyDays => 30
    case NinetyDays => 90
    case _ => 365
  }

  const PointsPerDay: nat := 24
  const MsPerDay: nat := 86400000

  /** The spacing of the generated points: one hour. */
  const MsPerPoint: nat := MsPerDay / PointsPerDay

  /** One point per hour of the range: a whole number of days of 24 points. */
  function TotalPoints(range: TimeRange): (n: nat)
    ensures 24 <= n <= 24 * 365 && n % 24 == 0
  {
    Days(range) * PointsPerDay
  }

  /** The position of a range in the selector, shortest first. */
  function Rank(range: TimeRange): nat
  {
    match range
    case OneDay => 0
    case SevenDays => 1
    case ThirtyDays => 2
    case NinetyDays => 3
    case OneYear => 4
    case All => 5
  }

  /** Longer ranges never fetch fewer points; every range fetches between one
      and 365 days of hourly points, and "max" fetches no more than "1y". */
  lemma {:induction false} DaysMonotone(r1: TimeRange, r2: TimeRange)
    requires Rank(r1) <= Rank(r2)
    ensures Days(r1) <= Days(r2) && TotalPoints(r1) <= TotalPoints(r2)
    ensures 1 <= Days(r1) <= 365 && TotalPoints(r1) == 24 * Days(r1)
    ensures Days(All) == Days(OneYear) == 365
  {
  }

  /** The hourly points span exactly the range's days: `totalPoints` steps of
      `msPerPoint` milliseconds are `days` whole days, so the first timestamp
      `now - totalPoints * msPerPoint` lies exactly `days` days back. */
  lemma {:induction false} PointsSpanRange(range: TimeRange)
    ensures MsPerPoint == 3600000
    ensures TotalPoints(range) * MsPerPoint == Days(range) * MsPerDay
  {
  }
}
