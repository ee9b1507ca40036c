/**
 * The receive loop: each poll compares the receiver's `rx_code_timestamp`
 * with the last one seen, records a new one, and when the new reading's
 * `rx_code` is the configured alert code runs the local command (if any)
 * and then `alert`.
 *
 * The receiver is an input: a poll is a `Reading`. Running the command and
 * calling `alert` are recorded as `Dispatch` values, in the order the loop
 * performs them.
 */
module Listener {

  import opened Wrappers
  import opened Settings
  import Notifier

  /**
   * What one poll reads from the receiver: `rx_code_timestamp` and `rx_code`,
   * both None until the receiver decodes its first code.
   */
  datatype Reading = Reading(timestamp: Option<int>, code: Option<int>)

  /**
   * A side effect of the loop: `os.system(command)`, or a call of
   * `alert(title, message)`, whose requests `Notifier.Alert` gives.
   */
  datatype Dispatch = RunLocal(command: string) | CallAlert(title: string, message: string)

  /** The loop's state after a sequence of polls, with everything dispatched so far. */
  datatype Trace = Trace(timestamp: Option<int>, dispatched: seq<Dispatch>)

  // ---------------------------------------------------------------------
  // One poll, as functions
  // ---------------------------------------------------------------------

  /** A reading the loop acts on: its timestamp is new and its code matches. */
  predicate Fires(cfg: Config, last: Option<int>, r: Reading)
  {
    r.timestamp != last && r.code == Some(cfg.alertCode)
  }

  /** What a matching reading sets off: the local command when one is configured, then the alert. */
  function AlertActions(cfg: Config): (ds: seq<Dispatch>)
    ensures 1 <= |ds| <= 2 && ds[|ds| - 1] == CallAlert(cfg.title, cfg.text)
    ensures |ds| == 2 <==> cfg.command != ""
    ensures |ds| == 2 ==> ds[0] == RunLocal(cfg.command)
  {
    (if cfg.command != "" then [RunLocal(cfg.command)] else []) + [CallAlert(cfg.title, cfg.text)]
  }

  /** The stored timestamp after a poll: the source overwrites it only when it differs. */
  function Next(last: Option<int>, r: Reading): (t: Option<int>)
    ensures t == r.timestamp
  {
    if r.timestamp != last then r.timestamp else last
  }

  /** What one poll dispatches, given the timestamp stored before it. */
  function Respond(cfg: Config, last: Option<int>, r: Reading): (ds: seq<Dispatch>)
    ensures r.timestamp == last ==> ds == []
    ensures r.code != Some(cfg.alertCode) ==> ds == []
    ensures Fires(cfg, last, r) ==> ds == AlertActions(cfg)
  {
    if r.timestamp != last then
      if r.code == Some(cfg.alertCode) then AlertActions(cfg) else []
    else []
  }

  /**
   * One poll applied to the loop's state: the stored timestamp becomes the
   * reading's, and dispatches are only ever appended, exactly when it fires.
   */
  function Step(cfg: Config, t: Trace, r: Reading): (next: Trace)
    ensures next.timestamp == r.timestamp
    ensures t.dispatched <= next.dispatched
    ensures next.dispatched != t.dispatched <==> Fires(cfg, t.timestamp, r)
  {
    Trace(Next(t.timestamp, r), t.dispatched + Respond(cfg, t.timestamp, r))
  }

  /**
   * The loop run over `rs`, starting from `timestamp = None`: it ends on the
   * last poll's timestamp, and each poll adds at most two dispatches.
   */
  function Replay(cfg: Config, rs: seq<Reading>): (t: Trace)
    ensures rs == [] ==> t == Trace(None, [])
    ensures rs != [] ==> t.timestamp == rs[|rs| - 1].timestamp
    ensures |t.dispatched| <= 2 * |rs|
    decreases |rs|
  {
    if rs == [] then Trace(None, [])
    else Step(cfg, Replay(cfg, rs[..|rs| - 1]), rs[|rs| - 1])
  }

  // ---------------------------------------------------------------------
  // A reference definition that does not thread any state
  // ---------------------------------------------------------------------

  /** The timestamp of the poll before position `j`, or None before the first. */
  function Prev(rs: seq<Reading>, j: nat): Option<int>
    requires j <= |rs|
  {
    if j == 0 then None else rs[j - 1].timestamp
  }

  /** Positions whose timestamp differs from the previous poll's and whose code matches. */
  function Firings(cfg: Config, rs: seq<Reading>): set<nat>
  {
    set j: nat | j < |rs| && Fires(cfg, Prev(rs, j), rs[j])
  }

  /** `n` copies of `ds`, one after the other. */
  function Repeat(ds: seq<Dispatch>, n: nat): seq<Dispatch>
  {
    if n == 0 then [] else Repeat(ds, n - 1) + ds
  }

  /** How many `alert` calls `ds` holds. */
  function AlertCount(ds: seq<Dispatch>): nat
  {
    if ds == [] then 0
    else AlertCount(ds[..|ds| - 1]) + (if ds[|ds| - 1].CallAlert? then 1 else 0)
  }

  lemma {:induction false} AlertCountAppend(a: seq<Dispatch>, b: seq<Dispatch>)
    ensures AlertCount(a + b) == AlertCount(a) + AlertCount(b)
    decreases |b|
  {
    if b == [] {
      assert a + b == a;
    } else {
      var n := |b| - 1;
      AlertCountAppend(a, b[..n]);
      assert (a + b)[..|a + b| - 1] == a + b[..n];
      assert (a + b)[|a + b| - 1] == b[n];
      assert AlertCount(b) == AlertCount(b[..n]) + (if b[n].CallAlert? then 1 else 0);
    }
  }

  /** Each round of dispatches holds one `alert`. */
  lemma {:induction false} RepeatAlertCount(cfg: Config, n: nat)
    ensures AlertCount(Repeat(AlertActions(cfg), n)) == n
  {
    if n > 0 {
      var ds := AlertActions(cfg);
      RepeatAlertCount(cfg, n - 1);
      AlertCountAppend(Repeat(ds, n - 1), ds);
      if |ds| == 2 {
        assert ds[..1][..0] == [];
        assert AlertCount(ds[..1]) == 0;
      } else {
        assert ds[..0] == [];
      }
      assert AlertCount(ds) == 1;
    }
  }

  // ---------------------------------------------------------------------
  // What the loop does over a sequence of polls
  // ---------------------------------------------------------------------

  /**
   * After any sequence of polls the stored timestamp is the last poll's,
   * and the loop has dispatched one full round (command, then alert) per
   * firing position, and nothing else.
   */
  lemma {:induction false} ReplayFirings(cfg: Config, rs: seq<Reading>)
    ensures Replay(cfg, rs).timestamp == Prev(rs, |rs|)
    ensures Replay(cfg, rs).dispatched == Repeat(AlertActions(cfg), |Firings(cfg, rs)|)
    decreases |rs|
  {
    if rs != [] {
      var n := |rs| - 1;
      ReplayFirings(cfg, rs[..n]);
      FiringsSnoc(cfg, rs);
    }
  }

  /** Extending the polls by one adds at most the new position to the firings. */
  lemma FiringsSnoc(cfg: Config, rs: seq<Reading>)
    requires rs != []
    ensures var n := |rs| - 1;
            Prev(rs[..n], n) == Prev(rs, n) &&
            |Firings(cfg, rs)| == |Firings(cfg, rs[..n])| + (if Fires(cfg, Prev(rs, n), rs[n]) then 1 else 0)
  {
    var n := |rs| - 1;
    var added: set<nat> := if Fires(cfg, Prev(rs, n), rs[n]) then {n} else {};
    FiringsExtend(cfg, rs);
    assert Firings(cfg, rs[..n]) !! added;
  }

  /** The set equality behind `FiringsSnoc`, kept apart so each proof stays small. */
  lemma FiringsExtend(cfg: Config, rs: seq<Reading>)
    requires rs != []
    ensures var n := |rs| - 1;
            Firings(cfg, rs) == Firings(cfg, rs[..n]) + (if Fires(cfg, Prev(rs, n), rs[n]) then {n} else {})
  {
  }

  /** The number of `alert` calls is the number of firing positions. */
  lemma AlertsMatchFirings(cfg: Config, rs: seq<Reading>)
    ensures AlertCount(Replay(cfg, rs).dispatched) == |Firings(cfg, rs)|
  {
    ReplayFirings(cfg, rs);
    RepeatAlertCount(cfg, |Firings(cfg, rs)|);
  }

  /** Polling the same reading again dispatches nothing more. */
  lemma RepeatedReadingIsQuiet(cfg: Config, rs: seq<Reading>, r: Reading)
    ensures Replay(cfg, rs + [r, r]).dispatched == Replay(cfg, rs + [r]).dispatched
  {
    assert (rs + [r, r])[..|rs| + 1] == rs + [r];
  }

  /** When no reading carries the alert code, nothing is ever dispatched. */
  lemma {:induction false} NoMatchNoDispatch(cfg: Config, rs: seq<Reading>)
    requires forall j :: 0 <= j < |rs| ==> rs[j].code != Some(cfg.alertCode)
    ensures Replay(cfg, rs).dispatched == []
  {
    ReplayFirings(cfg, rs);
    assert Firings(cfg, rs) == {};
  }

  /**
   * With alert code 4321: a first reading (T1, 4321) dispatches the command
   * and the alert, a second identical poll nothing, and (T2, 9999) nothing.
   */
  lemma AlertCodeScenario(cfg: Config)
    requires cfg.alertCode == 4321 && cfg.command != ""
    ensures var rs := [Reading(Some(1), Some(4321)), Reading(Some(1), Some(4321)), Reading(Some(2), Some(9999))];
            Replay(cfg, rs).dispatched == [RunLocal(cfg.command), CallAlert(cfg.title, cfg.text)]
  {
    var rs := [Reading(Some(1), Some(4321)), Reading(Some(1), Some(4321)), Reading(Some(2), Some(9999))];
    assert rs[..1][..0] == [];
    assert Replay(cfg, rs[..1]) == Trace(Some(1), AlertActions(cfg));
    assert rs[..2][..1] == rs[..1];
    assert Replay(cfg, rs[..2]) == Trace(Some(1), AlertActions(cfg));
    assert rs[..2] == rs[..|rs| - 1];
  }

  /** The requests the dispatches `ds` post, with the host's reachability fixed. */
  function Posted(cfg: Config, addonId: string, hostUp: bool, ds: seq<Dispatch>): seq<Notifier.Request>
  {
    if ds == [] then []
    else
      var d := ds[|ds| - 1];
      Posted(cfg, addonId, hostUp, ds[..|ds| - 1]) +
      (if d.CallAlert? then Notifier.Alert(hostUp, cfg.hostname, cfg.port, addonId, d.title, d.message) else [])
  }

  /**
   * A firing poll posts what `alert` plans for the configured texts: with
   * the host reachable, exactly one addon call.
   */
  lemma {:induction false} FiringPostsAlertPlan(cfg: Config, addonId: string, hostUp: bool)
    ensures Posted(cfg, addonId, hostUp, AlertActions(cfg)) ==
            Notifier.Alert(hostUp, cfg.hostname, cfg.port, addonId, cfg.title, cfg.text)
    ensures Notifier.CountMethod(Posted(cfg, addonId, hostUp, AlertActions(cfg)), Notifier.ExecuteAddon) ==
            (if hostUp then 1 else 0)
  {
    var ds := AlertActions(cfg);
    if |ds| == 2 {
      assert ds[..1][..0] == [];
      assert Posted(cfg, addonId, hostUp, ds[..1]) == [];
    } else {
      assert ds[..0] == [];
    }
    Notifier.AlertCounts(hostUp, cfg.hostname, cfg.port, addonId, cfg.title, cfg.text);
  }

  // ---------------------------------------------------------------------
  // The loop itself
  // ---------------------------------------------------------------------

  /** The receive loop's state: the configuration and the last timestamp seen. */
  class Receiver {
    const config: Config
    var lastTimestamp: Option<int>

    /** `timestamp = None` before the loop starts. */
    constructor (config: Config)
      ensures this.config == config && lastTimestamp == None
    {
      this.config := config;
      lastTimestamp := None;
    }

    /** One iteration of `while True`, without the 10 ms sleep. */
    method Tick(reading: Reading) returns (dispatches: seq<Dispatch>)
      modifies this`lastTimestamp
      ensures lastTimestamp == reading.timestamp
      ensures reading.timestamp == old(lastTimestamp) ==> dispatches == []
      ensures reading.timestamp != old(lastTimestamp) ==>
                (dispatches != [] <==> reading.code == Some(config.alertCode))
      ensures dispatches == Respond(config, old(lastTimestamp), reading)
    {
      dispatches := [];
      if reading.timestamp != lastTimestamp {
        lastTimestamp := reading.timestamp;
        if reading.code == Some(config.alertCode) {
          if config.command != "" {
            dispatches := dispatches + [RunLocal(config.command)];
          }
          dispatches := dispatches + [CallAlert(config.title, config.text)];
        }
      }
    }
  }

  /**
   * The loop over a finite sequence of polls, starting from `timestamp = None`.
   * It dispatches one round per firing position and nothing else.
   */
  method Listen(config: Config, readings: seq<Reading>) returns (dispatches: seq<Dispatch>)
    ensures dispatches == Replay(config, readings).dispatched
    ensures dispatches == Repeat(AlertActions(config), |Firings(config, readings)|)
    ensures AlertCount(dispatches) == |Firings(config, readings)|
  {
    var receiver := new Receiver(config);
    dispatches := [];
    var i := 0;
    while i < |readings|
      invariant 0 <= i <= |readings|
      invariant receiver.config == config
      invariant Replay(config, readings[..i]) == Trace(receiver.lastTimestamp, dispatches)
    {
      var ds := receiver.Tick(readings[i]);
      dispatches := dispatches + ds;
      assert readings[..i + 1][..i] == readings[..i];
      i := i + 1;
    }
    assert readings[..i] == readings;
    ReplayFirings(config, readings);
    AlertsMatchFirings(config, readings);
  }

}
