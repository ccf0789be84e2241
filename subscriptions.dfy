/** The subscription evaluators of the batch updater (weather/updater.py): for each kind of
    subscription, one pass over its rows that updates each row in place and appends at most one
    notice per row to the shared list.

    Each rule is first stated on one row value (`NodeDownStep`, `BandwidthStep`, `VersionStep`);
    the methods walk the row objects and are proved to leave every row as its step says and to
    append exactly the steps' notices, in row order, after the notices already in the list. */
module Subscriptions {
  import opened Model
  import opened Collaborators

  /** The relay-status source's answer for a version it could not parse. */
  const ERROR := "ERROR"
  const OBSOLETE := "OBSOLETE"

  /** The outcome of evaluating one row: the row afterwards and the notice appended, if any. */
  datatype Step<R> = Step(row: R, notice: Option<Notice>)

  function NoticeList(notice: Option<Notice>): seq<Notice>
  {
    if notice.Some? then [notice.value] else []
  }

  /** The notices a pass appends, in the order of its steps. */
  function Emitted<R>(steps: seq<Step<R>>): seq<Notice>
  {
    if steps == [] then [] else Emitted(steps[..|steps| - 1]) + NoticeList(steps[|steps| - 1].notice)
  }

  /** Evaluating step `i` of a pass appends that step's notice after the notices of the steps
      before it. */
  lemma EmitOne<R>(emailList: seq<Notice>, steps: seq<Step<R>>, i: int)
    requires 0 <= i < |steps|
    ensures emailList + Emitted(steps[..i + 1])
            == emailList + Emitted(steps[..i]) + NoticeList(steps[i].notice)
  {
    assert steps[..i + 1][..i] == steps[..i];
    Appended(emailList, Emitted(steps[..i]), NoticeList(steps[i].notice));
  }

  function RowsOf<R>(steps: seq<Step<R>>): seq<R>
  {
    seq(|steps|, k requires 0 <= k < |steps| => steps[k].row)
  }

  ghost predicate Distinct<T>(xs: seq<T>)
  {
    forall i, j :: 0 <= i < j < |xs| ==> xs[i] != xs[j]
  }

  /** `sub.subscriber.confirmed` read as an attribute, as the bandwidth and version checks do.
      When `confirmed` is a method, as the node-down check's call implies, the attribute is a bound
      method and always truthy; when it is a stored flag, it is that flag. */
  function ConfirmedAttribute(info: SubscriberInfo, confirmedIsMethod: bool): (passes: bool)
    ensures confirmedIsMethod ==> passes
    ensures !confirmedIsMethod ==> (passes <==> info.confirmed)
  {
    confirmedIsMethod || info.confirmed
  }

  // ---------------------------------------------------------------------------------------------
  // check_node_down

  /** One node-down row. `gracePassed(lastChanged, gracePd, now)` stands for the row's
      `is_grace_passed()`, which sees the `last_changed` stamped in the same step. While the
      subscriber is unconfirmed the row is triggered, and `emailed` rises (with a notice) once the
      grace period has passed; confirmation clears the row and restamps it. */
  function NodeDownStep(row: NodeDownRow, now: int, gracePassed: (int, int, int) -> bool)
    : (s: Step<NodeDownRow>)
    ensures s.row.subscriber == row.subscriber && s.row.gracePd == row.gracePd
    ensures s.row.triggered == !row.subscriber.confirmed
    ensures s.row.lastChanged == (if s.row.triggered == row.triggered then row.lastChanged else now)
    ensures row.subscriber.confirmed ==> s.row.emailed == (row.emailed && !row.triggered)
    ensures !row.subscriber.confirmed ==>
      (s.row.emailed <==> row.emailed || gracePassed(s.row.lastChanged, row.gracePd, now))
    ensures s.notice.Some? <==> !row.emailed && s.row.emailed
    ensures s.notice.Some? ==> s.notice.value == NodeDownNotice(
      row.subscriber.email, row.subscriber.fingerprint, row.subscriber.routerName, row.gracePd,
      row.subscriber.unsubsAuth, row.subscriber.prefAuth)
    ensures NodeDownConsistent(row) ==> NodeDownConsistent(s.row)
  {
    var info := row.subscriber;
    if info.confirmed then
      if row.triggered then Step(row.(triggered := false, emailed := false, lastChanged := now), None)
      else Step(row, None)
    else
      var stamped := if row.triggered then row else row.(triggered := true, lastChanged := now);
      if gracePassed(stamped.lastChanged, stamped.gracePd, now) && !stamped.emailed then
        Step(stamped.(emailed := true),
             Some(NodeDownNotice(info.email, info.fingerprint, info.routerName, row.gracePd,
                                 info.unsubsAuth, info.prefAuth)))
      else Step(stamped, None)
  }

  function NodeDownPass(rows: seq<NodeDownRow>, now: int, gracePassed: (int, int, int) -> bool)
    : seq<Step<NodeDownRow>>
  {
    seq(|rows|, k requires 0 <= k < |rows| => NodeDownStep(rows[k], now, gracePassed))
  }

  ghost function NodeDownRows(subs: seq<NodeDownSub>): seq<NodeDownRow>
    reads subs
  {
    seq(|subs|, k requires 0 <= k < |subs| reads subs => subs[k].Row())
  }

  method CheckNodeDown(subs: seq<NodeDownSub>, now: int, gracePassed: (int, int, int) -> bool,
                       emailList: seq<Notice>)
    returns (emails: seq<Notice>)
    requires Distinct(subs)
    modifies subs
    ensures NodeDownRows(subs) == RowsOf(NodeDownPass(old(NodeDownRows(subs)), now, gracePassed))
    ensures emails == emailList + Emitted(NodeDownPass(old(NodeDownRows(subs)), now, gracePassed))
  {
    ghost var before := NodeDownRows(subs);
    ghost var steps := NodeDownPass(before, now, gracePassed);
    emails := emailList;
    for i := 0 to |subs|
      invariant forall k :: 0 <= k < i ==> subs[k].Row() == steps[k].row
      invariant forall k :: i <= k < |subs| ==> subs[k].Row() == before[k]
      invariant emails == emailList + Emitted(steps[..i])
    {
      var notice := EvaluateNodeDownAt(subs, i, now, gracePassed);
      EmitOne(emailList, steps, i);
      emails := emails + NoticeList(notice);
    }
    assert steps[..|subs|] == steps;
  }

  /** The loop body of `check_node_down` on the row at `i`; the other rows are other objects. */
  method EvaluateNodeDownAt(subs: seq<NodeDownSub>, i: int, now: int,
                            gracePassed: (int, int, int) -> bool)
    returns (notice: Option<Notice>)
    requires 0 <= i < |subs| && Distinct(subs)
    modifies subs[i]
    ensures Step(subs[i].Row(), notice) == NodeDownStep(old(subs[i].Row()), now, gracePassed)
    ensures forall k :: 0 <= k < |subs| && k != i ==> subs[k].Row() == old(subs[k].Row())
  {
    notice := EvaluateNodeDown(subs[i], now, gracePassed);
  }

  /** The loop body of `check_node_down`, on one row object. */
  method EvaluateNodeDown(sub: NodeDownSub, now: int, gracePassed: (int, int, int) -> bool)
    returns (notice: Option<Notice>)
    modifies sub
    ensures Step(sub.Row(), notice) == NodeDownStep(old(sub.Row()), now, gracePassed)
  {
    notice := None;
    if sub.subscriber.confirmed {
      if sub.triggered {
        sub.triggered := false;
        sub.emailed := false;
        sub.lastChanged := now;
      }
    } else {
      if !sub.triggered {
        sub.triggered := true;
        sub.lastChanged := now;
      }
      if gracePassed(sub.lastChanged, sub.gracePd, now) && !sub.emailed {
        var info := sub.subscriber;
        notice := Some(NodeDownNotice(info.email, info.fingerprint, info.routerName, sub.gracePd,
                                      info.unsubsAuth, info.prefAuth));
        sub.emailed := true;
      }
    }
  }

  // ---------------------------------------------------------------------------------------------
  // check_low_bandwith

  /** One bandwidth row: for a subscriber who passes the confirmation test, `emailed` follows
      "the reading is below the threshold", and a notice goes out exactly when it rises. */
  function BandwidthStep(row: BandwidthRow, relays: RelayStatus, confirmedIsMethod: bool)
    : (s: Step<BandwidthRow>)
    ensures s.row == row.(emailed := s.row.emailed)
    ensures s.row.emailed == if ConfirmedAttribute(row.subscriber, confirmedIsMethod)
                             then relays.bandwidth(row.subscriber.fingerprint) < row.threshold
                             else row.emailed
    ensures s.notice.Some? <==> !row.emailed && s.row.emailed
    ensures s.notice.Some? ==> s.notice.value == BandwidthNotice(
      row.subscriber.email, row.subscriber.fingerprint, row.subscriber.routerName,
      relays.bandwidth(row.subscriber.fingerprint), row.threshold,
      row.subscriber.unsubsAuth, row.subscriber.prefAuth)
  {
    var info := row.subscriber;
    if ConfirmedAttribute(info, confirmedIsMethod) then
      var bandwidth := relays.bandwidth(info.fingerprint);
      if bandwidth < row.threshold then
        if !row.emailed then
          Step(row.(emailed := true),
               Some(BandwidthNotice(info.email, info.fingerprint, info.routerName, bandwidth,
                                    row.threshold, info.unsubsAuth, info.prefAuth)))
        else Step(row, None)
      else Step(row.(emailed := false), None)
    else Step(row, None)
  }

  function BandwidthPass(rows: seq<BandwidthRow>, relays: RelayStatus, confirmedIsMethod: bool)
    : seq<Step<BandwidthRow>>
  {
    seq(|rows|, k requires 0 <= k < |rows| => BandwidthStep(rows[k], relays, confirmedIsMethod))
  }

  ghost function BandwidthRows(subs: seq<BandwithSub>): seq<BandwidthRow>
    reads subs
  {
    seq(|subs|, k requires 0 <= k < |subs| reads subs => subs[k].Row())
  }

  method CheckLowBandwith(subs: seq<BandwithSub>, relays: RelayStatus, confirmedIsMethod: bool,
                          emailList: seq<Notice>)
    returns (emails: seq<Notice>)
    requires Distinct(subs)
    modifies subs
    ensures BandwidthRows(subs) == RowsOf(BandwidthPass(old(BandwidthRows(subs)), relays, confirmedIsMethod))
    ensures emails == emailList + Emitted(BandwidthPass(old(BandwidthRows(subs)), relays, confirmedIsMethod))
  {
    ghost var before := BandwidthRows(subs);
    ghost var steps := BandwidthPass(before, relays, confirmedIsMethod);
    emails := emailList;
    for i := 0 to |subs|
      invariant forall k :: 0 <= k < i ==> subs[k].Row() == steps[k].row
      invariant forall k :: i <= k < |subs| ==> subs[k].Row() == before[k]
      invariant emails == emailList + Emitted(steps[..i])
    {
      var notice := EvaluateBandwidthAt(subs, i, relays, confirmedIsMethod);
      EmitOne(emailList, steps, i);
      emails := emails + NoticeList(notice);
    }
    assert steps[..|subs|] == steps;
  }

  /** The loop body of `check_low_bandwith` on the row at `i`; the other rows are other objects. */
  method EvaluateBandwidthAt(subs: seq<BandwithSub>, i: int, relays: RelayStatus,
                             confirmedIsMethod: bool)
    returns (notice: Option<Notice>)
    requires 0 <= i < |subs| && Distinct(subs)
    modifies subs[i]
    ensures Step(subs[i].Row(), notice) == BandwidthStep(old(subs[i].Row()), relays, confirmedIsMethod)
    ensures forall k :: 0 <= k < |subs| && k != i ==> subs[k].Row() == old(subs[k].Row())
  {
    notice := EvaluateBandwidth(subs[i], relays, confirmedIsMethod);
  }

  /** The loop body of `check_low_bandwith`, on one row object. */
  method EvaluateBandwidth(sub: BandwithSub, relays: RelayStatus, confirmedIsMethod: bool)
    returns (notice: Option<Notice>)
    modifies sub
    ensures Step(sub.Row(), notice) == BandwidthStep(old(sub.Row()), relays, confirmedIsMethod)
  {
    notice := None;
    var info := sub.subscriber;
    if ConfirmedAttribute(info, confirmedIsMethod) {
      var bandwidth := relays.bandwidth(info.fingerprint);
      if bandwidth < sub.threshold {
        if !sub.emailed {
          notice := Some(BandwidthNotice(info.email, info.fingerprint, info.routerName, bandwidth,
                                         sub.threshold, info.unsubsAuth, info.prefAuth));
          sub.emailed := true;
        }
      } else {
        sub.emailed := false;
      }
    }
  }

  // ---------------------------------------------------------------------------------------------
  // check_version

  /** One outdated-version row: for a subscriber who passes the confirmation test and a parsed
      classification, `emailed` follows "the relay runs an obsolete version", and a notice goes
      out exactly when it rises; an unparsed classification changes nothing. */
  function VersionStep(row: VersionRow, relays: RelayStatus, confirmedIsMethod: bool)
    : (s: Step<VersionRow>)
    ensures s.row == row.(emailed := s.row.emailed)
    ensures s.row.emailed == if ConfirmedAttribute(row.subscriber, confirmedIsMethod)
                                && relays.versionType(row.subscriber.fingerprint) != ERROR
                             then relays.versionType(row.subscriber.fingerprint) == OBSOLETE
                             else row.emailed
    ensures s.notice.Some? <==> !row.emailed && s.row.emailed
    ensures s.notice.Some? ==> s.notice.value == VersionNotice(
      row.subscriber.email, row.subscriber.fingerprint, row.subscriber.routerName, OBSOLETE,
      row.subscriber.unsubsAuth, row.subscriber.prefAuth)
  {
    var info := row.subscriber;
    if ConfirmedAttribute(info, confirmedIsMethod) then
      var versionType := relays.versionType(info.fingerprint);
      if versionType != ERROR then
        if versionType == OBSOLETE then
          if !row.emailed then
            Step(row.(emailed := true),
                 Some(VersionNotice(info.email, info.fingerprint, info.routerName, versionType,
                                    info.unsubsAuth, info.prefAuth)))
          else Step(row, None)
        else Step(row.(emailed := false), None)
      else Step(row, None)
    else Step(row, None)
  }

  function VersionPass(rows: seq<VersionRow>, relays: RelayStatus, confirmedIsMethod: bool)
    : seq<Step<VersionRow>>
  {
    seq(|rows|, k requires 0 <= k < |rows| => VersionStep(rows[k], relays, confirmedIsMethod))
  }

  ghost function VersionRows(subs: seq<OutdatedVersionSub>): seq<VersionRow>
    reads subs
  {
    seq(|subs|, k requires 0 <= k < |subs| reads subs => subs[k].Row())
  }

  method CheckVersion(subs: seq<OutdatedVersionSub>, relays: RelayStatus, confirmedIsMethod: bool,
                      emailList: seq<Notice>)
    returns (emails: seq<Notice>)
    requires Distinct(subs)
    modifies subs
    ensures VersionRows(subs) == RowsOf(VersionPass(old(VersionRows(subs)), relays, confirmedIsMethod))
    ensures emails == emailList + Emitted(VersionPass(old(VersionRows(subs)), relays, confirmedIsMethod))
  {
    ghost var before := VersionRows(subs);
    ghost var steps := VersionPass(before, relays, confirmedIsMethod);
    emails := emailList;
    for i := 0 to |subs|
      invariant forall k :: 0 <= k < i ==> subs[k].Row() == steps[k].row
      invariant forall k :: i <= k < |subs| ==> subs[k].Row() == before[k]
      invariant emails == emailList + Emitted(steps[..i])
    {
      var notice := EvaluateVersionAt(subs, i, relays, confirmedIsMethod);
      EmitOne(emailList, steps, i);
      emails := emails + NoticeList(notice);
    }
    assert steps[..|subs|] == steps;
  }

  /** The loop body of `check_version` on the row at `i`; the other rows are other objects. */
  method EvaluateVersionAt(subs: seq<OutdatedVersionSub>, i: int, relays: RelayStatus,
                           confirmedIsMethod: bool)
    returns (notice: Option<Notice>)
    requires 0 <= i < |subs| && Distinct(subs)
    modifies subs[i]
    ensures Step(subs[i].Row(), notice) == VersionStep(old(subs[i].Row()), relays, confirmedIsMethod)
    ensures forall k :: 0 <= k < |subs| && k != i ==> subs[k].Row() == old(subs[k].Row())
  {
    notice := EvaluateVersion(subs[i], relays, confirmedIsMethod);
  }

  /** The loop body of `check_version`, on one row object. */
  method EvaluateVersion(sub: OutdatedVersionSub, relays: RelayStatus, confirmedIsMethod: bool)
    returns (notice: Option<Notice>)
    modifies sub
    ensures Step(sub.Row(), notice) == VersionStep(old(sub.Row()), relays, confirmedIsMethod)
  {
    notice := None;
    var info := sub.subscriber;
    if ConfirmedAttribute(info, confirmedIsMethod) {
      var versionType := relays.versionType(info.fingerprint);
      if versionType != ERROR {
        if versionType == OBSOLETE {
          if !sub.emailed {
            notice := Some(VersionNotice(info.email, info.fingerprint, info.routerName, versionType,
                                         info.unsubsAuth, info.prefAuth));
            sub.emailed := true;
          }
        } else {
          sub.emailed := false;
        }
      }
      // An unparsed classification is only logged.
    }
  }

  // ---------------------------------------------------------------------------------------------
  // check_all_subs

  /** `check_dns_failure` has no rule yet: the list is left as it is. */
  method CheckDnsFailure(relays: RelayStatus, emailList: seq<Notice>) returns (emails: seq<Notice>)
    ensures emails == emailList
  {
    emails := emailList;
  }

  /** Node-down, then version, then bandwidth, then the DNS-failure check. When `confirmed` is a
      stored flag rather than a method (`confirmedIsMethod` false), the call `confirmed()` on the
      first node-down row raises (a bool is not callable) before that row changes, so nothing is
      changed or appended and the other checks never run: `raised` records that. */
  method CheckAllSubs(nodeDownSubs: seq<NodeDownSub>, versionSubs: seq<OutdatedVersionSub>,
                      bandwidthSubs: seq<BandwithSub>, relays: RelayStatus, now: int,
                      gracePassed: (int, int, int) -> bool, confirmedIsMethod: bool,
                      emailList: seq<Notice>)
    returns (emails: seq<Notice>, raised: bool)
    requires Distinct(nodeDownSubs) && Distinct(versionSubs) && Distinct(bandwidthSubs)
    modifies nodeDownSubs, versionSubs, bandwidthSubs
    ensures raised <==> !confirmedIsMethod && nodeDownSubs != []
    ensures raised ==>
      && emails == emailList
      && NodeDownRows(nodeDownSubs) == old(NodeDownRows(nodeDownSubs))
      && VersionRows(versionSubs) == old(VersionRows(versionSubs))
      && BandwidthRows(bandwidthSubs) == old(BandwidthRows(bandwidthSubs))
    ensures !raised ==>
      && NodeDownRows(nodeDownSubs)
         == RowsOf(NodeDownPass(old(NodeDownRows(nodeDownSubs)), now, gracePassed))
      && VersionRows(versionSubs)
         == RowsOf(VersionPass(old(VersionRows(versionSubs)), relays, confirmedIsMethod))
      && BandwidthRows(bandwidthSubs)
         == RowsOf(BandwidthPass(old(BandwidthRows(bandwidthSubs)), relays, confirmedIsMethod))
      && emails == emailList
                   + Emitted(NodeDownPass(old(NodeDownRows(nodeDownSubs)), now, gracePassed))
                   + Emitted(VersionPass(old(VersionRows(versionSubs)), relays, confirmedIsMethod))
                   + Emitted(BandwidthPass(old(BandwidthRows(bandwidthSubs)), relays, confirmedIsMethod))
  {
    if !confirmedIsMethod && |nodeDownSubs| > 0 {
      emails, raised := emailList, true;
      return;
    }
    raised := false;
    ghost var versionRows := VersionRows(versionSubs);
    ghost var bandwidthRows := BandwidthRows(bandwidthSubs);
    emails := CheckNodeDown(nodeDownSubs, now, gracePassed, emailList);
    assert VersionRows(versionSubs) == versionRows;
    assert BandwidthRows(bandwidthSubs) == bandwidthRows;
    ghost var nodeDownRows := NodeDownRows(nodeDownSubs);
    emails := CheckVersion(versionSubs, relays, confirmedIsMethod, emails);
    assert NodeDownRows(nodeDownSubs) == nodeDownRows;
    assert BandwidthRows(bandwidthSubs) == bandwidthRows;
    versionRows := VersionRows(versionSubs);
    emails := CheckLowBandwith(bandwidthSubs, relays, confirmedIsMethod, emails);
    emails := CheckDnsFailure(relays, emails);
    assert NodeDownRows(nodeDownSubs) == nodeDownRows;
    assert VersionRows(versionSubs) == versionRows;
  }
}
