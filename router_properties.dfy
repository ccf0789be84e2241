/** What `update_all_routers` promises about the router table and the welcome notices, stated on the
    value-level pass (`RouterPass`) that the store methods are proved to perform. */
module RouterProperties {
  import opened Model
  import opened Collaborators
  import opened Routers

  /** The fingerprints of the entries reported up (or hibernating). */
  ghost function UpFingers(entries: seq<Reported>, relays: RelayStatus): set<string>
  {
    set e | e in entries && relays.upOrHibernating(e.fingerprint) :: e.fingerprint
  }

  /** The entry at `k` is the last one with its fingerprint. */
  ghost predicate LastWith(entries: seq<Reported>, k: int)
    requires 0 <= k < |entries|
  {
    forall j :: k < j < |entries| ==> entries[j].fingerprint != entries[k].fingerprint
  }

  /** A non-empty list is its prefix followed by its last entry. */
  lemma SplitLast(entries: seq<Reported>)
    requires entries != []
    ensures entries == entries[..|entries| - 1] + [entries[|entries| - 1]]
  {
  }

  // ---------------------------------------------------------------------------------------------
  // The second loop

  /** After the second loop the table holds the routers it had plus one per fingerprint reported
      up, and the routers not reported up are untouched. */
  lemma {:induction false} RefreshAllKeeps(rows: map<string, RouterRow>, entries: seq<Reported>,
                                           relays: RelayStatus, now: int, fullyDeployed: bool)
    ensures var pass := RefreshAll(rows, entries, relays, now, fullyDeployed);
      && pass.rows.Keys == rows.Keys + UpFingers(entries, relays)
      && (forall fp :: fp in rows && fp !in UpFingers(entries, relays) ==> pass.rows[fp] == rows[fp])
    decreases |entries|
  {
    if entries != [] {
      var init := entries[..|entries| - 1];
      var entry := entries[|entries| - 1];
      RefreshAllKeeps(rows, init, relays, now, fullyDeployed);
      SplitLast(entries);
      assert UpFingers(entries, relays)
          == UpFingers(init, relays)
             + (if relays.upOrHibernating(entry.fingerprint) then {entry.fingerprint} else {});
    }
  }

  /** After the second loop every router reported up is up, seen now, with the reported exit flag. */
  lemma {:induction false} RefreshAllSeen(rows: map<string, RouterRow>, entries: seq<Reported>,
                                          relays: RelayStatus, now: int, fullyDeployed: bool)
    ensures var pass := RefreshAll(rows, entries, relays, now, fullyDeployed);
      forall fp :: fp in UpFingers(entries, relays) ==>
        fp in pass.rows && pass.rows[fp].up && pass.rows[fp].lastSeen == now
        && pass.rows[fp].exit == relays.isExit(fp)
    decreases |entries|
  {
    if entries != [] {
      var init := entries[..|entries| - 1];
      var entry := entries[|entries| - 1];
      RefreshAllSeen(rows, init, relays, now, fullyDeployed);
      var before := RefreshAll(rows, init, relays, now, fullyDeployed);
      var last := Refreshed(before.rows, entry, relays, now, fullyDeployed);
      SplitLast(entries);
      forall fp | fp in UpFingers(entries, relays)
        ensures fp in last.rows && last.rows[fp].up && last.rows[fp].lastSeen == now
                && last.rows[fp].exit == relays.isExit(fp)
      {
        if fp != entry.fingerprint || !relays.upOrHibernating(entry.fingerprint) {
          var e :| e in entries && relays.upOrHibernating(e.fingerprint) && e.fingerprint == fp;
          assert e in init;
        }
      }
    }
  }

  /** After the second loop a router reported up carries the name of the last entry for it. */
  lemma {:induction false} RefreshAllNames(rows: map<string, RouterRow>, entries: seq<Reported>,
                                           relays: RelayStatus, now: int, fullyDeployed: bool)
    ensures var pass := RefreshAll(rows, entries, relays, now, fullyDeployed);
      forall k :: 0 <= k < |entries| && relays.upOrHibernating(entries[k].fingerprint)
                  && LastWith(entries, k) ==>
        entries[k].fingerprint in pass.rows && pass.rows[entries[k].fingerprint].name == entries[k].name
    decreases |entries|
  {
    if entries != [] {
      var init := entries[..|entries| - 1];
      RefreshAllNames(rows, init, relays, now, fullyDeployed);
      var before := RefreshAll(rows, init, relays, now, fullyDeployed);
      var last := Refreshed(before.rows, entries[|entries| - 1], relays, now, fullyDeployed);
      forall k | 0 <= k < |entries| && relays.upOrHibernating(entries[k].fingerprint) && LastWith(entries, k)
        ensures entries[k].fingerprint in last.rows && last.rows[entries[k].fingerprint].name == entries[k].name
      {
        if k < |entries| - 1 {
          assert init[k] == entries[k];
          assert LastWith(init, k);
        }
      }
    }
  }

  /** The whole pass: a router reported up ends it up and seen now; every other router still in the
      table was there before, is not expired, and is marked down with nothing else changed. */
  lemma RouterPassOutcome(rows: map<string, RouterRow>, relays: RelayStatus, now: int,
                          fullyDeployed: bool)
    ensures var pass := RouterPass(rows, relays, now, fullyDeployed);
      var up := UpFingers(relays.fingerNames, relays);
      && (forall fp :: fp in up ==>
            fp in pass.rows && pass.rows[fp].up && pass.rows[fp].lastSeen == now
            && pass.rows[fp].exit == relays.isExit(fp))
      && (forall fp :: fp in pass.rows && fp !in up ==>
            fp in rows && !Expired(rows[fp], now) && pass.rows[fp] == rows[fp].(up := false))
      && (forall fp :: fp in rows && fp !in up ==> (fp in pass.rows <==> !Expired(rows[fp], now)))
  {
    RefreshAllKeeps(AgeOut(rows, now), relays.fingerNames, relays, now, fullyDeployed);
    RefreshAllSeen(AgeOut(rows, now), relays.fingerNames, relays, now, fullyDeployed);
  }

  // ---------------------------------------------------------------------------------------------
  // Welcomes

  /** The welcome notices for one fingerprint in a list of notices. */
  function WelcomesFor(notices: seq<Notice>, fp: string): nat
  {
    if notices == [] then 0
    else WelcomesFor(notices[..|notices| - 1], fp)
         + (if notices[|notices| - 1].WelcomeNotice? && notices[|notices| - 1].fingerprint == fp
            then 1 else 0)
  }

  lemma {:induction false} WelcomesForAppend(a: seq<Notice>, b: seq<Notice>, fp: string)
    ensures WelcomesFor(a + b, fp) == WelcomesFor(a, fp) + WelcomesFor(b, fp)
    decreases |b|
  {
    if b == [] {
      assert a + b == a;
    } else {
      WelcomesForAppend(a, b[..|b| - 1], fp);
      assert (a + b)[..|a + b| - 1] == a + b[..|b| - 1];
      assert (a + b)[|a + b| - 1] == b[|b| - 1];
    }
  }

  /** 1 while the router under `fp` can still be welcomed (absent, or stored unwelcomed), else 0. */
  function Welcomable(rows: map<string, RouterRow>, fp: string): nat
  {
    if fp in rows && rows[fp].welcomed then 0 else 1
  }

  /** A welcome spends the router's welcomability and nothing restores it within the second loop:
      so the loop welcomes a router at most once, and never one already welcomed. */
  lemma {:induction false} WelcomesBounded(rows: map<string, RouterRow>, entries: seq<Reported>,
                                           relays: RelayStatus, now: int, fullyDeployed: bool,
                                           fp: string)
    ensures var pass := RefreshAll(rows, entries, relays, now, fullyDeployed);
      WelcomesFor(pass.notices, fp) + Welcomable(pass.rows, fp) <= Welcomable(rows, fp)
    decreases |entries|
  {
    if entries != [] {
      var init := entries[..|entries| - 1];
      WelcomesBounded(rows, init, relays, now, fullyDeployed, fp);
      var before := RefreshAll(rows, init, relays, now, fullyDeployed);
      var last := Refreshed(before.rows, entries[|entries| - 1], relays, now, fullyDeployed);
      WelcomesForAppend(before.notices, last.notices, fp);
      assert WelcomesFor(last.notices, fp) + Welcomable(last.rows, fp) <= Welcomable(before.rows, fp);
    }
  }

  /** After the second loop, a router that was welcomed in it is stored, welcomed and seen now. */
  lemma {:induction false} WelcomeLeavesWelcomed(rows: map<string, RouterRow>, entries: seq<Reported>,
                                                 relays: RelayStatus, now: int, fullyDeployed: bool,
                                                 fp: string)
    ensures var pass := RefreshAll(rows, entries, relays, now, fullyDeployed);
      WelcomesFor(pass.notices, fp) > 0 ==>
        fp in pass.rows && pass.rows[fp].welcomed && pass.rows[fp].lastSeen == now
    decreases |entries|
  {
    if entries != [] {
      var init := entries[..|entries| - 1];
      WelcomeLeavesWelcomed(rows, init, relays, now, fullyDeployed, fp);
      var before := RefreshAll(rows, init, relays, now, fullyDeployed);
      var last := Refreshed(before.rows, entries[|entries| - 1], relays, now, fullyDeployed);
      WelcomesForAppend(before.notices, last.notices, fp);
    }
  }

  /** One pass welcomes a router at most once, and not at all one stored welcomed and unexpired. */
  lemma AtMostOneWelcomePerPass(rows: map<string, RouterRow>, relays: RelayStatus, now: int,
                                fullyDeployed: bool, fp: string)
    ensures WelcomesFor(RouterPass(rows, relays, now, fullyDeployed).notices, fp) <= 1
    ensures fp in rows && rows[fp].welcomed && !Expired(rows[fp], now) ==>
      WelcomesFor(RouterPass(rows, relays, now, fullyDeployed).notices, fp) == 0
  {
    WelcomesBounded(AgeOut(rows, now), relays.fingerNames, relays, now, fullyDeployed, fp);
  }

  /** Two passes less than 366 days apart welcome a router at most once between them. */
  lemma NoSecondWelcome(rows: map<string, RouterRow>, first: RelayStatus, firstNow: int,
                        firstFully: bool, second: RelayStatus, secondNow: int, secondFully: bool,
                        fp: string)
    requires firstNow <= secondNow < firstNow + 366 * SECONDS_PER_DAY
    ensures var one := RouterPass(rows, first, firstNow, firstFully);
      var two := RouterPass(one.rows, second, secondNow, secondFully);
      WelcomesFor(one.notices, fp) + WelcomesFor(two.notices, fp) <= 1
  {
    var one := RouterPass(rows, first, firstNow, firstFully);
    AtMostOneWelcomePerPass(rows, first, firstNow, firstFully, fp);
    AtMostOneWelcomePerPass(one.rows, second, secondNow, secondFully, fp);
    WelcomeLeavesWelcomed(AgeOut(rows, firstNow), first.fingerNames, first, firstNow, firstFully, fp);
  }

  // ---------------------------------------------------------------------------------------------
  // The lookup as written

  /** The second loop as weather/updater.py writes it, entry by entry: the table as committed, the
      notices appended so far, and whether a commit failed. A failed commit raises out of
      `update_all_routers`, so the entries after it are never processed. */
  datatype Attempt = Attempt(refresh: Refresh, aborted: bool)

  /** One entry as written. The lookup always raises (the query object has no `filter_all`, and
      deleting the `None` a real lookup can give raises too), so the handler builds a new router
      even when one is stored, and the stored one is never deleted. The new router is refreshed,
      welcomed if due and its welcome appended; then the commit inserts it. For a fingerprint already
      stored that insert repeats the primary key: the commit fails and the table stays as it was. */
  function RefreshedAsWritten(rows: map<string, RouterRow>, entry: Reported, relays: RelayStatus,
                              now: int, fullyDeployed: bool): (a: Attempt)
    ensures var finger := entry.fingerprint;
      && (a.aborted <==> relays.upOrHibernating(finger) && finger in rows)
      && (a.aborted ==> a.refresh.rows == rows)
      && (!a.aborted ==> a.refresh == Refreshed(rows, entry, relays, now, fullyDeployed))
      && (relays.upOrHibernating(finger) ==>
            (a.refresh.notices != [] <==> fullyDeployed && relays.isStable(finger)
                                          && relays.email(finger) != ""))
  {
    var inserted := RefreshWith(rows, NotFound, entry, relays, now, fullyDeployed);
    if relays.upOrHibernating(entry.fingerprint) && entry.fingerprint in rows
    then Attempt(Refresh(rows, inserted.notices), true)
    else Attempt(inserted, false)
  }

  /** The second loop as written: the entries in order, up to the first failed commit. */
  function RefreshAllAsWritten(rows: map<string, RouterRow>, entries: seq<Reported>,
                               relays: RelayStatus, now: int, fullyDeployed: bool): (a: Attempt)
    ensures rows.Keys <= a.refresh.rows.Keys
    ensures !a.aborted ==> a.refresh == RefreshAll(rows, entries, relays, now, fullyDeployed)
    decreases |entries|
  {
    if entries == [] then Attempt(Refresh(rows, []), false)
    else
      var before := RefreshAllAsWritten(rows, entries[..|entries| - 1], relays, now, fullyDeployed);
      if before.aborted then before
      else
        var last := RefreshedAsWritten(before.refresh.rows, entries[|entries| - 1], relays, now,
                                       fullyDeployed);
        Attempt(Refresh(last.refresh.rows, before.refresh.notices + last.refresh.notices), last.aborted)
  }

  /** The whole pass as written, once the deployment stamp is known. */
  function RouterPassAsWritten(rows: map<string, RouterRow>, relays: RelayStatus, now: int,
                               fullyDeployed: bool): (a: Attempt)
    ensures !a.aborted ==> a.refresh == RouterPass(rows, relays, now, fullyDeployed)
    ensures AgeOut(rows, now).Keys <= a.refresh.rows.Keys
  {
    RefreshAllAsWritten(AgeOut(rows, now), relays.fingerNames, relays, now, fullyDeployed)
  }

  /** As written, the second loop fails once it reaches a router reported up whose fingerprint is
      already stored. */
  lemma {:induction false} AsWrittenAbortsOnStored(rows: map<string, RouterRow>, entries: seq<Reported>,
                                                   relays: RelayStatus, now: int, fullyDeployed: bool,
                                                   k: int)
    requires 0 <= k < |entries|
    requires relays.upOrHibernating(entries[k].fingerprint) && entries[k].fingerprint in rows
    ensures RefreshAllAsWritten(rows, entries, relays, now, fullyDeployed).aborted
    decreases |entries|
  {
    var init := entries[..|entries| - 1];
    if k < |entries| - 1 {
      assert init[k] == entries[k];
      AsWrittenAbortsOnStored(rows, init, relays, now, fullyDeployed, k);
    }
  }

  /** A stored, welcomed relay reported up, stable and with a contact address, once the service is
      fully deployed: as written, its entry appends a welcome and then fails at the commit, leaving
      the table as it was; the intended lookup sends nothing and refreshes the stored row. */
  lemma AsWrittenWelcomesThenAborts(rows: map<string, RouterRow>, entry: Reported,
                                    relays: RelayStatus, now: int)
    requires entry.fingerprint in rows && rows[entry.fingerprint].welcomed
    requires relays.upOrHibernating(entry.fingerprint) && relays.isStable(entry.fingerprint)
    requires relays.email(entry.fingerprint) != ""
    ensures var a := RefreshedAsWritten(rows, entry, relays, now, true);
      a.aborted && a.refresh.rows == rows && WelcomesFor(a.refresh.notices, entry.fingerprint) == 1
    ensures var r := Refreshed(rows, entry, relays, now, true);
      WelcomesFor(r.notices, entry.fingerprint) == 0 && r.rows[entry.fingerprint].lastSeen == now
  {
  }

  /** As written, `update_all_routers` completes at most once while a relay stays up: after a pass
      that completes with the relay reported up, a pass less than 366 days later that reports it
      up again fails. The intended pass always completes and welcomes it at most once
      (`NoSecondWelcome`). */
  lemma AsWrittenSecondPassAborts(rows: map<string, RouterRow>, first: RelayStatus, firstNow: int,
                                  firstFully: bool, second: RelayStatus, secondNow: int,
                                  secondFully: bool, fp: string)
    requires firstNow <= secondNow < firstNow + 366 * SECONDS_PER_DAY
    requires fp in UpFingers(first.fingerNames, first) && fp in UpFingers(second.fingerNames, second)
    ensures var one := RouterPassAsWritten(rows, first, firstNow, firstFully);
      !one.aborted ==> RouterPassAsWritten(one.refresh.rows, second, secondNow, secondFully).aborted
  {
    var one := RouterPassAsWritten(rows, first, firstNow, firstFully);
    if !one.aborted {
      RefreshAllSeen(AgeOut(rows, firstNow), first.fingerNames, first, firstNow, firstFully);
      assert fp in one.refresh.rows && one.refresh.rows[fp].lastSeen == firstNow;
      var aged := AgeOut(one.refresh.rows, secondNow);
      assert fp in aged;
      var e :| e in second.fingerNames && second.upOrHibernating(e.fingerprint) && e.fingerprint == fp;
      var k :| 0 <= k < |second.fingerNames| && second.fingerNames[k] == e;
      AsWrittenAbortsOnStored(aged, second.fingerNames, second, secondNow, secondFully, k);
    }
  }
}
