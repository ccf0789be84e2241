/** What the subscription rules promise over time: one row taken through a run of passes, each pass
    with its own relay-status answers (or, for node-down, its own confirmation status and clock).

    The promises are the rules' purpose: a notice goes out when a condition starts and not again
    while it persists, the row re-arms when the condition clears, and an unparsed version
    classification is invisible. */
module SubscriptionProperties {
  import opened Model
  import opened Collaborators
  import opened Subscriptions

  /** A row after a run of passes, with the notices the run appended, in order. */
  datatype Run<R> = Run(row: R, notices: seq<Notice>)

  // ---------------------------------------------------------------------------------------------
  // Bandwidth

  function BandwidthRun(row: BandwidthRow, passes: seq<RelayStatus>, confirmedIsMethod: bool)
    : Run<BandwidthRow>
    decreases |passes|
  {
    if passes == [] then Run(row, [])
    else
      var s := BandwidthStep(row, passes[0], confirmedIsMethod);
      var rest := BandwidthRun(s.row, passes[1..], confirmedIsMethod);
      Run(rest.row, NoticeList(s.notice) + rest.notices)
  }

  /** The readings of one relay, pass by pass. */
  function Readings(passes: seq<RelayStatus>, fingerprint: string): seq<int>
  {
    seq(|passes|, k requires 0 <= k < |passes| => passes[k].bandwidth(fingerprint))
  }

  /** How many times the readings drop below the threshold, starting from `below`. */
  function Drops(below: bool, readings: seq<int>, threshold: int): nat
    decreases |readings|
  {
    if readings == [] then 0
    else (if readings[0] < threshold && !below then 1 else 0)
         + Drops(readings[0] < threshold, readings[1..], threshold)
  }

  /** For a subscriber who passes the confirmation test, a run sends one notice per drop below the
      threshold (counting from the stored `emailed` flag), and `emailed` ends up telling whether
      the last reading was below the threshold. */
  lemma {:induction false} BandwidthNoticesAreDrops(row: BandwidthRow, passes: seq<RelayStatus>,
                                                    confirmedIsMethod: bool)
    requires ConfirmedAttribute(row.subscriber, confirmedIsMethod)
    ensures |BandwidthRun(row, passes, confirmedIsMethod).notices|
         == Drops(row.emailed, Readings(passes, row.subscriber.fingerprint), row.threshold)
    ensures passes != [] ==>
      BandwidthRun(row, passes, confirmedIsMethod).row.emailed
        == (passes[|passes| - 1].bandwidth(row.subscriber.fingerprint) < row.threshold)
    decreases |passes|
  {
    if passes != [] {
      var s := BandwidthStep(row, passes[0], confirmedIsMethod);
      BandwidthNoticesAreDrops(s.row, passes[1..], confirmedIsMethod);
      assert Readings(passes, row.subscriber.fingerprint)[1..]
          == Readings(passes[1..], row.subscriber.fingerprint);
    }
  }

  /** While the readings stay below the threshold, one notice goes out (the first pass, and only
      if none was recorded) and `emailed` stays set: the duplicate suppression. */
  lemma {:induction false} LowBandwidthNotifiesOnce(row: BandwidthRow, passes: seq<RelayStatus>,
                                                    confirmedIsMethod: bool)
    requires ConfirmedAttribute(row.subscriber, confirmedIsMethod)
    requires forall k :: 0 <= k < |passes| ==>
      passes[k].bandwidth(row.subscriber.fingerprint) < row.threshold
    ensures var run := BandwidthRun(row, passes, confirmedIsMethod);
      var info := row.subscriber;
      && run.notices
         == (if !row.emailed && passes != []
             then [BandwidthNotice(info.email, info.fingerprint, info.routerName,
                                   passes[0].bandwidth(info.fingerprint), row.threshold,
                                   info.unsubsAuth, info.prefAuth)]
             else [])
      && (passes != [] ==> run.row.emailed)
    decreases |passes|
  {
    if passes != [] {
      var s := BandwidthStep(row, passes[0], confirmedIsMethod);
      LowBandwidthNotifiesOnce(s.row, passes[1..], confirmedIsMethod);
    }
  }

  /** A reading of 19, then 21, then 19 against the default threshold of 20 notifies twice: the
      reading back above the threshold re-arms the row. */
  lemma DipRecoverDip(row: BandwidthRow, passes: seq<RelayStatus>, confirmedIsMethod: bool)
    requires ConfirmedAttribute(row.subscriber, confirmedIsMethod)
    requires !row.emailed && row.threshold == 20 && |passes| == 3
    requires passes[0].bandwidth(row.subscriber.fingerprint) == 19
    requires passes[1].bandwidth(row.subscriber.fingerprint) == 21
    requires passes[2].bandwidth(row.subscriber.fingerprint) == 19
    ensures |BandwidthRun(row, passes, confirmedIsMethod).notices| == 2
  {
    BandwidthNoticesAreDrops(row, passes, confirmedIsMethod);
    assert Readings(passes, row.subscriber.fingerprint) == [19, 21, 19];
    assert Drops(true, [19], 20) == 0;
    assert Drops(false, [21, 19], 20) == Drops(false, [19], 20) == 1;
  }

  // ---------------------------------------------------------------------------------------------
  // Version

  function VersionRun(row: VersionRow, passes: seq<RelayStatus>, confirmedIsMethod: bool)
    : Run<VersionRow>
    decreases |passes|
  {
    if passes == [] then Run(row, [])
    else
      var s := VersionStep(row, passes[0], confirmedIsMethod);
      var rest := VersionRun(s.row, passes[1..], confirmedIsMethod);
      Run(rest.row, NoticeList(s.notice) + rest.notices)
  }

  function Classifications(passes: seq<RelayStatus>, fingerprint: string): seq<string>
  {
    seq(|passes|, k requires 0 <= k < |passes| => passes[k].versionType(fingerprint))
  }

  /** How many times the parsed classifications turn to OBSOLETE, starting from `obsolete`;
      unparsed ones are skipped. */
  function Rises(obsolete: bool, kinds: seq<string>): nat
    decreases |kinds|
  {
    if kinds == [] then 0
    else if kinds[0] == ERROR then Rises(obsolete, kinds[1..])
    else (if kinds[0] == OBSOLETE && !obsolete then 1 else 0) + Rises(kinds[0] == OBSOLETE, kinds[1..])
  }

  /** For a subscriber who passes the confirmation test, a run sends one notice each time the
      relay's version turns obsolete, as if the unparsed classifications were not there. */
  lemma {:induction false} VersionNoticesAreRises(row: VersionRow, passes: seq<RelayStatus>,
                                                  confirmedIsMethod: bool)
    requires ConfirmedAttribute(row.subscriber, confirmedIsMethod)
    ensures |VersionRun(row, passes, confirmedIsMethod).notices|
         == Rises(row.emailed, Classifications(passes, row.subscriber.fingerprint))
    decreases |passes|
  {
    if passes != [] {
      var s := VersionStep(row, passes[0], confirmedIsMethod);
      VersionNoticesAreRises(s.row, passes[1..], confirmedIsMethod);
      assert Classifications(passes, row.subscriber.fingerprint)[1..]
          == Classifications(passes[1..], row.subscriber.fingerprint);
    }
  }

  /** A run in which the classification never parses leaves the row as it was and sends nothing,
      whatever the confirmation status. */
  lemma {:induction false} UnparsedVersionChangesNothing(row: VersionRow, passes: seq<RelayStatus>,
                                                         confirmedIsMethod: bool)
    requires forall k :: 0 <= k < |passes| ==>
      passes[k].versionType(row.subscriber.fingerprint) == ERROR
    ensures VersionRun(row, passes, confirmedIsMethod) == Run(row, [])
    decreases |passes|
  {
    if passes != [] {
      UnparsedVersionChangesNothing(row, passes[1..], confirmedIsMethod);
    }
  }

  // ---------------------------------------------------------------------------------------------
  // Node down

  /** What one node-down pass sees of a row's subscriber: the confirmation status, and the clock. */
  datatype Observation = Observation(confirmed: bool, now: int)

  function NodeDownRun(row: NodeDownRow, observations: seq<Observation>,
                       gracePassed: (int, int, int) -> bool): Run<NodeDownRow>
    decreases |observations|
  {
    if observations == [] then Run(row, [])
    else
      var seen := row.(subscriber := row.subscriber.(confirmed := observations[0].confirmed));
      var s := NodeDownStep(seen, observations[0].now, gracePassed);
      var rest := NodeDownRun(s.row, observations[1..], gracePassed);
      Run(rest.row, NoticeList(s.notice) + rest.notices)
  }

  /** During an outage (no pass sees the subscriber confirmed) the row stays triggered with the
      stamp of the outage's first pass (or the one already stored), and at most one notice goes
      out: exactly one when none was recorded and the grace period, measured from that stamp, has
      passed at some pass. */
  lemma {:induction false} OutageNotifiesAtMostOnce(row: NodeDownRow, observations: seq<Observation>,
                                                    gracePassed: (int, int, int) -> bool)
    requires observations != []
    requires forall k :: 0 <= k < |observations| ==> !observations[k].confirmed
    ensures var stamp := if row.triggered then row.lastChanged else observations[0].now;
      var run := NodeDownRun(row, observations, gracePassed);
      && run.row.triggered && run.row.lastChanged == stamp
      && |run.notices| <= 1
      && (|run.notices| == 1 <==>
            !row.emailed
            && exists k :: 0 <= k < |observations| && gracePassed(stamp, row.gracePd, observations[k].now))
    decreases |observations|
  {
    var stamp := if row.triggered then row.lastChanged else observations[0].now;
    assert !observations[0].confirmed;
    var seen := row.(subscriber := row.subscriber.(confirmed := false));
    var s := NodeDownStep(seen, observations[0].now, gracePassed);
    assert s.row.triggered && s.row.lastChanged == stamp;
    var run := NodeDownRun(row, observations, gracePassed);
    if |observations| == 1 {
      assert NodeDownRun(s.row, observations[1..], gracePassed) == Run(s.row, []);
      assert run.notices == NoticeList(s.notice);
    } else {
      var rest := observations[1..];
      OutageNotifiesAtMostOnce(s.row, rest, gracePassed);
      assert run.notices == NoticeList(s.notice) + NodeDownRun(s.row, rest, gracePassed).notices;
      if |run.notices| == 1 && !gracePassed(stamp, row.gracePd, observations[0].now) {
        var k :| 0 <= k < |rest| && gracePassed(stamp, row.gracePd, rest[k].now);
        assert observations[k + 1] == rest[k];
      }
      if !row.emailed && !gracePassed(stamp, row.gracePd, observations[0].now)
         && exists k :: 0 <= k < |observations| && gracePassed(stamp, row.gracePd, observations[k].now)
      {
        var k :| 0 <= k < |observations| && gracePassed(stamp, row.gracePd, observations[k].now);
        assert k != 0;
        assert rest[k - 1] == observations[k];
      }
    }
  }

  /** A pass that sees the subscriber confirmed ends any outage: the row is neither triggered nor
      emailed, so the next outage notifies again. */
  lemma {:induction false} ConfirmationRearms(row: NodeDownRow, observations: seq<Observation>,
                                              gracePassed: (int, int, int) -> bool)
    requires NodeDownConsistent(row)
    requires observations != [] && observations[|observations| - 1].confirmed
    ensures var run := NodeDownRun(row, observations, gracePassed);
      !run.row.triggered && !run.row.emailed
    decreases |observations|
  {
    var seen := row.(subscriber := row.subscriber.(confirmed := observations[0].confirmed));
    var s := NodeDownStep(seen, observations[0].now, gracePassed);
    if |observations| > 1 {
      ConfirmationRearms(s.row, observations[1..], gracePassed);
    }
  }
}
