/** The price-alert panel: the list of active alerts derived from the alert
    map, and the guard that turns the typed threshold into a `setAlert`. */
module AlertSettings {
  import opened SeriesMath
  import opened AppContext

  /** One row of the active-alert list. */
  datatype ActiveAlert = ActiveAlert(symbol: CryptoSymbol, kind: AlertType, value: real)

  /** The rows of one map entry: its "above" threshold, then its "below"
      threshold, each only when it is set. */
  function EntryAlerts(symbol: CryptoSymbol, t: Thresholds): (r: seq<ActiveAlert>)
    ensures |r| <= 2
  {
    (if t.above.Some? then [ActiveAlert(symbol, Above, t.above.value)] else [])
    + (if t.below.Some? then [ActiveAlert(symbol, Below, t.below.value)] else [])
  }

  /** The flattened rows of the entries whose keys are `keys`, in that order. */
  function ActiveAlertsOf(keys: seq<CryptoSymbol>, table: map<CryptoSymbol, Thresholds>): (r: seq<ActiveAlert>)
    requires forall k :: 0 <= k < |keys| ==> keys[k] in table
    ensures |r| <= 2 * |keys|
  {
    if keys == [] then []
    else EntryAlerts(keys[0], table[keys[0]]) + ActiveAlertsOf(keys[1..], table)
  }

  /** `activeAlerts`: the map's entries in insertion order, flattened. */
  function ActiveAlerts(alerts: Alerts): (r: seq<ActiveAlert>)
    requires Valid(alerts)
    ensures |r| <= 2 * |alerts.order|
  {
    ActiveAlertsOf(alerts.order, alerts.table)
  }

  /** A row is listed exactly when its symbol is a key whose threshold of that
      kind is set to the row's value. */
  lemma {:induction false} ActiveAlertsOfExact(keys: seq<CryptoSymbol>, table: map<CryptoSymbol, Thresholds>, e: ActiveAlert)
    requires forall k :: 0 <= k < |keys| ==> keys[k] in table
    ensures e in ActiveAlertsOf(keys, table) <==>
      e.symbol in keys && Field(table[e.symbol], e.kind) == Some(e.value)
  {
    if keys != [] {
      ActiveAlertsOfExact(keys[1..], table, e);
      assert e.symbol in keys <==> e.symbol == keys[0] || e.symbol in keys[1..];
    }
  }

  /** The list shows every set threshold, and nothing else. */
  lemma {:induction false} ActiveAlertsExact(alerts: Alerts, e: ActiveAlert)
    requires Valid(alerts)
    ensures e in ActiveAlerts(alerts) <==>
      e.symbol in alerts.table && Field(alerts.table[e.symbol], e.kind) == Some(e.value)
  {
    ActiveAlertsOfExact(alerts.order, alerts.table, e);
  }

  /** The place of a key in the insertion order. */
  function Position(keys: seq<CryptoSymbol>, s: CryptoSymbol): (p: nat)
    requires s in keys
    ensures p < |keys| && keys[p] == s
  {
    if keys[0] == s then 0 else 1 + Position(keys[1..], s)
  }

  /** The place a row takes in the list: two per key, "above" before "below". */
  function Slot(keys: seq<CryptoSymbol>, e: ActiveAlert): nat
    requires e.symbol in keys
  {
    2 * Position(keys, e.symbol) + (if e.kind == Above then 0 else 1)
  }

  predicate Distinct(keys: seq<CryptoSymbol>)
  {
    forall i, j :: 0 <= i < j < |keys| ==> keys[i] != keys[j]
  }

  /** The rows of the first entry take the first two slots, in order. */
  lemma {:induction false} HeadSlots(keys: seq<CryptoSymbol>, t: Thresholds)
    requires keys != []
    ensures var head := EntryAlerts(keys[0], t);
      && (forall i :: 0 <= i < |head| ==> head[i].symbol in keys && Slot(keys, head[i]) <= 1)
      && (forall i, j :: 0 <= i < j < |head| ==> Slot(keys, head[i]) < Slot(keys, head[j]))
  {
    var head := EntryAlerts(keys[0], t);
    assert forall i :: 0 <= i < |head| ==> head[i].symbol == keys[0];
    assert |head| == 2 ==> head[0].kind == Above && head[1].kind == Below;
  }

  /** Behind a distinct first key, the slots of the later rows move up by two. */
  lemma {:induction false} TailSlots(keys: seq<CryptoSymbol>, tail: seq<ActiveAlert>)
    requires keys != [] && Distinct(keys)
    requires forall i :: 0 <= i < |tail| ==> tail[i].symbol in keys[1..]
    ensures forall i :: 0 <= i < |tail| ==>
      tail[i].symbol in keys && Slot(keys, tail[i]) == 2 + Slot(keys[1..], tail[i])
  {
    forall i | 0 <= i < |tail|
      ensures tail[i].symbol in keys && Slot(keys, tail[i]) == 2 + Slot(keys[1..], tail[i])
    {
      var p := Position(keys[1..], tail[i].symbol);
      assert keys[p + 1] == tail[i].symbol;
    }
  }

  /** The rows follow the insertion order of the map, and within one symbol
      "above" comes before "below". */
  lemma {:induction false} ActiveAlertsOfOrdered(keys: seq<CryptoSymbol>, table: map<CryptoSymbol, Thresholds>)
    requires forall k :: 0 <= k < |keys| ==> keys[k] in table
    requires Distinct(keys)
    ensures forall i :: 0 <= i < |ActiveAlertsOf(keys, table)| ==> ActiveAlertsOf(keys, table)[i].symbol in keys
    ensures forall i, j :: 0 <= i < j < |ActiveAlertsOf(keys, table)| ==>
      Slot(keys, ActiveAlertsOf(keys, table)[i]) < Slot(keys, ActiveAlertsOf(keys, table)[j])
  {
    if keys != [] {
      var rest := keys[1..];
      ActiveAlertsOfOrdered(rest, table);
      var head := EntryAlerts(keys[0], table[keys[0]]);
      var tail := ActiveAlertsOf(rest, table);
      HeadSlots(keys, table[keys[0]]);
      TailSlots(keys, tail);
      assert ActiveAlertsOf(keys, table) == head + tail;
      ConcatSlots(keys, head, tail);
    }
  }

  /** Rows in slots 0 and 1 followed by rows in increasing slots from 2 on
      are in increasing slots. */
  lemma {:induction false} ConcatSlots(keys: seq<CryptoSymbol>, head: seq<ActiveAlert>, tail: seq<ActiveAlert>)
    requires forall i :: 0 <= i < |head| ==> head[i].symbol in keys && Slot(keys, head[i]) <= 1
    requires forall i, j :: 0 <= i < j < |head| ==> Slot(keys, head[i]) < Slot(keys, head[j])
    requires forall i :: 0 <= i < |tail| ==> tail[i].symbol in keys && Slot(keys, tail[i]) >= 2
    requires forall i, j :: 0 <= i < j < |tail| ==> Slot(keys, tail[i]) < Slot(keys, tail[j])
    ensures forall i :: 0 <= i < |head + tail| ==> (head + tail)[i].symbol in keys
    ensures forall i, j :: 0 <= i < j < |head + tail| ==> Slot(keys, (head + tail)[i]) < Slot(keys, (head + tail)[j])
  {
    var r := head + tail;
    forall i, j | 0 <= i < j < |r|
      ensures Slot(keys, r[i]) < Slot(keys, r[j])
    {
      if j < |head| {
        assert r[i] == head[i] && r[j] == head[j];
      } else if i < |head| {
        assert r[i] == head[i] && r[j] == tail[j - |head|];
      } else {
        assert r[i] == tail[i - |head|] && r[j] == tail[j - |head|];
      }
    }
  }

  /** The list is ordered by the map's insertion order, "above" first. */
  lemma {:induction false} ActiveAlertsOrdered(alerts: Alerts)
    requires Valid(alerts)
    ensures forall i :: 0 <= i < |ActiveAlerts(alerts)| ==> ActiveAlerts(alerts)[i].symbol in alerts.order
    ensures forall i, j :: 0 <= i < j < |ActiveAlerts(alerts)| ==>
      Slot(alerts.order, ActiveAlerts(alerts)[i]) < Slot(alerts.order, ActiveAlerts(alerts)[j])
  {
    ActiveAlertsOfOrdered(alerts.order, alerts.table);
  }

  /** The (symbol, kind) pairs whose threshold is set. */
  ghost function SetThresholds(alerts: Alerts): set<(CryptoSymbol, AlertType)>
  {
    set s, k | s in alerts.table && k in {Above, Below} && Field(alerts.table[s], k).Some? :: (s, k)
  }

  /** A sequence without repeats has as many elements as its set. */
  lemma {:induction false} DistinctCardinality<T>(xs: seq<T>)
    requires forall i, j :: 0 <= i < j < |xs| ==> xs[i] != xs[j]
    ensures |set x | x in xs| == |xs|
  {
    if xs != [] {
      var rest := xs[1..];
      DistinctCardinality(rest);
      assert (set x | x in xs) == {xs[0]} + (set x | x in rest);
      assert xs[0] !in rest;
    }
  }

  /** The (symbol, kind) pair of each row, in list order. */
  function RowKeys(rows: seq<ActiveAlert>): (keys: seq<(CryptoSymbol, AlertType)>)
    ensures |keys| == |rows|
    ensures forall i :: 0 <= i < |rows| ==> keys[i] == (rows[i].symbol, rows[i].kind)
  {
    seq(|rows|, i requires 0 <= i < |rows| => (rows[i].symbol, rows[i].kind))
  }

  /** No two rows share a symbol and a side. */
  lemma {:induction false} RowKeysDistinct(alerts: Alerts)
    requires Valid(alerts)
    ensures var keys := RowKeys(ActiveAlerts(alerts));
      forall i, j :: 0 <= i < j < |keys| ==> keys[i] != keys[j]
  {
    var r := ActiveAlerts(alerts);
    ActiveAlertsOrdered(alerts);
    var keys := RowKeys(r);
    forall i, j | 0 <= i < j < |keys| ensures keys[i] != keys[j] {
      assert Slot(alerts.order, r[i]) < Slot(alerts.order, r[j]);
    }
  }

  /** The pairs of the rows are exactly the pairs whose threshold is set. */
  lemma {:induction false} RowKeysAreSetThresholds(alerts: Alerts)
    requires Valid(alerts)
    ensures (set p | p in RowKeys(ActiveAlerts(alerts))) == SetThresholds(alerts)
  {
    var r := ActiveAlerts(alerts);
    var keys := RowKeys(r);
    forall p | p in SetThresholds(alerts) ensures p in keys {
      var e := ActiveAlert(p.0, p.1, Field(alerts.table[p.0], p.1).value);
      ActiveAlertsExact(alerts, e);
      var i :| 0 <= i < |r| && r[i] == e;
      assert keys[i] == p;
    }
    forall p | p in keys ensures p in SetThresholds(alerts) {
      var i :| 0 <= i < |keys| && keys[i] == p;
      ActiveAlertsExact(alerts, r[i]);
      assert p.1 in {Above, Below};
    }
  }

  /** The list has one row per set threshold. */
  lemma {:induction false} ActiveAlertsCount(alerts: Alerts)
    requires Valid(alerts)
    ensures |ActiveAlerts(alerts)| == |SetThresholds(alerts)| <= 2 * |alerts.order|
  {
    var keys := RowKeys(ActiveAlerts(alerts));
    RowKeysDistinct(alerts);
    DistinctCardinality(keys);
    RowKeysAreSetThresholds(alerts);
  }

  /** The alert map the panel starts from lists no alerts. */
  lemma {:induction false} InitialAlertsInactive()
    ensures Valid(InitialAlerts) && ActiveAlerts(InitialAlerts) == []
  {
    InitialAlertsValid();
    var r := ActiveAlerts(InitialAlerts);
    if r != [] {
      ActiveAlertsExact(InitialAlerts, r[0]);
      assert false;
    }
  }

  // ---------------------------------------------------------------------------
  // Setting an alert from the form

  /** The form's local state: the chosen symbol, the chosen side and the typed
      threshold. */
  datatype Form = Form(symbol: CryptoSymbol, kind: AlertType, input: string)

  const InitialForm: Form := Form(XRP, Above, "")

  datatype Panel = Panel(form: Form, alerts: Alerts)

  /** `handleSetAlert`: an empty or unparsable input changes nothing;
      otherwise the parsed threshold is set and the input is cleared.
      `parse` stands for `parseFloat`, with `None` for NaN. */
  function HandleSetAlert(form: Form, alerts: Alerts, parse: string -> Option<real>): (r: Panel)
    requires Valid(alerts)
    ensures Valid(r.alerts)
  {
    if form.input == [] || parse(form.input).None? then Panel(form, alerts)
    else Panel(form.(input := []), SetAlert(alerts, form.symbol, form.kind, parse(form.input)))
  }

  /** The form starts on XRP, "above", with an empty input, so pressing the
      button before typing changes nothing. */
  lemma {:induction false} InitialFormRejected(alerts: Alerts, parse: string -> Option<real>)
    requires Valid(alerts)
    ensures InitialForm.input == []
    ensures HandleSetAlert(InitialForm, alerts, parse) == Panel(InitialForm, alerts)
  {
    HandleSetAlertRejects(InitialForm, alerts, parse);
  }

  /** A rejected input leaves the form and the alert map as they were. */
  lemma {:induction false} HandleSetAlertRejects(form: Form, alerts: Alerts, parse: string -> Option<real>)
    requires Valid(alerts)
    requires form.input == [] || parse(form.input).None?
    ensures HandleSetAlert(form, alerts, parse) == Panel(form, alerts)
  {
  }

  /** After a `setAlert` a row is listed exactly when it is the new threshold
      of the chosen symbol and side, or when it belongs to another symbol or
      side and was listed before. */
  lemma {:induction false} ActiveAfterSet(alerts: Alerts, symbol: CryptoSymbol, kind: AlertType, value: Option<real>, e: ActiveAlert)
    requires Valid(alerts)
    ensures e in ActiveAlerts(SetAlert(alerts, symbol, kind, value)) <==>
      if e.symbol == symbol && e.kind == kind then value == Some(e.value) else e in ActiveAlerts(alerts)
  {
    var next := SetAlert(alerts, symbol, kind, value);
    ActiveAlertsExact(next, e);
    ActiveAlertsExact(alerts, e);
    assert symbol in next.table && next.table[symbol] == WithField(Current(alerts, symbol), kind, value);
    if e.symbol != symbol {
      assert e.symbol in next.table <==> e.symbol in alerts.table;
      assert e.symbol in alerts.table ==> next.table[e.symbol] == alerts.table[e.symbol];
    } else if e.kind != kind {
      assert Field(next.table[symbol], e.kind) == Field(Current(alerts, symbol), e.kind);
    }
  }

  /** An accepted input clears the typed text and lists the new threshold as
      the only row of its symbol and side; every other row stays as it was. */
  lemma {:induction false} HandleSetAlertAccepts(form: Form, alerts: Alerts, parse: string -> Option<real>)
    requires Valid(alerts)
    requires form.input != [] && parse(form.input).Some?
    ensures var r := HandleSetAlert(form, alerts, parse);
      && r.form == form.(input := [])
      && ActiveAlert(form.symbol, form.kind, parse(form.input).value) in ActiveAlerts(r.alerts)
      && (forall w :: ActiveAlert(form.symbol, form.kind, w) in ActiveAlerts(r.alerts) ==> w == parse(form.input).value)
      && (forall e: ActiveAlert :: (e.symbol, e.kind) != (form.symbol, form.kind) ==>
            (e in ActiveAlerts(r.alerts) <==> e in ActiveAlerts(alerts)))
  {
    var value := parse(form.input);
    ActiveAfterSet(alerts, form.symbol, form.kind, value, ActiveAlert(form.symbol, form.kind, value.value));
    forall w | ActiveAlert(form.symbol, form.kind, w) in ActiveAlerts(HandleSetAlert(form, alerts, parse).alerts)
      ensures w == value.value
    {
      ActiveAfterSet(alerts, form.symbol, form.kind, value, ActiveAlert(form.symbol, form.kind, w));
    }
    forall e: ActiveAlert | (e.symbol, e.kind) != (form.symbol, form.kind)
      ensures e in ActiveAlerts(HandleSetAlert(form, alerts, parse).alerts) <==> e in ActiveAlerts(alerts)
    {
      ActiveAfterSet(alerts, form.symbol, form.kind, value, e);
    }
  }

  /** The remove button of a row: afterwards no row of that symbol and side is
      listed, and every other row stays as it was. */
  lemma {:induction false} RemoveAlertDeactivates(alerts: Alerts, symbol: CryptoSymbol, kind: AlertType)
    requires Valid(alerts)
    ensures var next := RemoveAlert(alerts, symbol, kind);
      && (forall w :: ActiveAlert(symbol, kind, w) !in ActiveAlerts(next))
      && (forall e: ActiveAlert :: (e.symbol, e.kind) != (symbol, kind) ==>
            (e in ActiveAlerts(next) <==> e in ActiveAlerts(alerts)))
  {
    RemoveAlertIsSetNull(alerts, symbol, kind);
    forall w ensures ActiveAlert(symbol, kind, w) !in ActiveAlerts(SetAlert(alerts, symbol, kind, None)) {
      ActiveAfterSet(alerts, symbol, kind, None, ActiveAlert(symbol, kind, w));
    }
    forall e: ActiveAlert | (e.symbol, e.kind) != (symbol, kind)
      ensures e in ActiveAlerts(SetAlert(alerts, symbol, kind, None)) <==> e in ActiveAlerts(alerts)
    {
      ActiveAfterSet(alerts, symbol, kind, None, e);
    }
  }
}
