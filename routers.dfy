/** Router reconciliation, `update_all_routers` in weather/updater.py: stamp the deployment time on
    the first run, age out or mark down every stored router, then create or refresh every router the
    relay-status source reports up (or hibernating) and welcome the stable ones once.

    The pass is stated on values first (`AgeOut`, `Refreshed`, `RefreshAll`, `RouterPass` over a map
    of router rows keyed by fingerprint); the methods work on the store of `Router` objects and are
    proved to leave its rows and the notice list exactly as those functions say. */
module Routers {
  import opened Model
  import opened Collaborators

  const SECONDS_PER_DAY := 86400

  /** `timedelta.days`: whole days, rounded down (toward minus infinity) for a negative span. */
  function WholeDays(seconds: int): (days: int)
    ensures days * SECONDS_PER_DAY <= seconds < days * SECONDS_PER_DAY + SECONDS_PER_DAY
  {
    seconds / SECONDS_PER_DAY
  }

  /** The system is fully deployed once two whole days have passed since the stamp: 48 hours. */
  function FullyDeployed(deployed: int, now: int): (fully: bool)
    ensures fully <==> now - deployed >= 2 * SECONDS_PER_DAY
  {
    !(WholeDays(now - deployed) < 2)
  }

  /** A router last seen more than 365 whole days ago, that is at least 366 days ago. */
  function Expired(row: RouterRow, now: int): (expired: bool)
    ensures expired <==> now - row.lastSeen >= 366 * SECONDS_PER_DAY
  {
    WholeDays(now - row.lastSeen) > 365
  }

  /** Every row is stored under its own fingerprint. */
  ghost predicate Keyed(rows: map<string, RouterRow>)
  {
    forall fp :: fp in rows ==> rows[fp].fingerprint == fp
  }

  // ---------------------------------------------------------------------------------------------
  // The pass on values

  /** The first loop: expired routers are deleted, every other router is marked down. */
  function AgeOut(rows: map<string, RouterRow>, now: int): (kept: map<string, RouterRow>)
    ensures forall fp :: fp in kept <==> fp in rows && !Expired(rows[fp], now)
    ensures forall fp :: fp in kept ==> kept[fp] == rows[fp].(up := false)
    ensures Keyed(rows) ==> Keyed(kept)
  {
    map fp | fp in rows && !Expired(rows[fp], now) :: rows[fp].(up := false)
  }

  /** The result of looking a router up by fingerprint. */
  datatype Lookup<T> = Found(record: T) | NotFound

  function LookupRow(rows: map<string, RouterRow>, finger: string): (found: Lookup<RouterRow>)
    ensures found.Found? <==> finger in rows
    ensures found.Found? ==> found.record == rows[finger]
  {
    if finger in rows then Found(rows[finger]) else NotFound
  }

  datatype Refresh = Refresh(rows: map<string, RouterRow>, notices: seq<Notice>)

  datatype Sighting = Sighting(row: RouterRow, notices: seq<Notice>)

  /** A router reported up: refreshed from the report; if it is unwelcomed and stable it becomes
      welcomed, with a welcome notice when the relay has a contact address. */
  function Sight(stored: RouterRow, entry: Reported, relays: RelayStatus, now: int): (s: Sighting)
    ensures var finger := entry.fingerprint;
      && s.row == stored.(lastSeen := now, name := entry.name, up := true, exit := relays.isExit(finger),
                          welcomed := s.row.welcomed)
      && (s.row.welcomed <==> stored.welcomed || relays.isStable(finger))
      && (s.notices != [] <==> !stored.welcomed && relays.isStable(finger) && relays.email(finger) != "")
      && (s.notices != [] ==>
            s.notices == [WelcomeNotice(relays.email(finger), finger, entry.name, relays.isExit(finger))])
  {
    var finger := entry.fingerprint;
    var seen := stored.(lastSeen := now, name := entry.name, up := true,
                        exit := relays.isExit(finger));
    if !seen.welcomed && relays.isStable(finger) then
      var recipient := relays.email(finger);
      Sighting(seen.(welcomed := true),
               if recipient != "" then [WelcomeNotice(recipient, finger, entry.name, relays.isExit(finger))]
               else [])
    else Sighting(seen, [])
  }

  /** The row a router not found in the store starts from: welcomed already unless the system is
      fully deployed, so that a first deployment does not welcome every relay. */
  function Created(entry: Reported, now: int, fullyDeployed: bool): (row: RouterRow)
    ensures row == RouterRow(entry.fingerprint, entry.name, !fullyDeployed, now, true, false, None)
  {
    NewRouterRow(now, entry.fingerprint, name := entry.name, welcomed := !fullyDeployed)
  }

  /** One entry of the reported list, given what the lookup of its fingerprint returned. */
  function RefreshWith(rows: map<string, RouterRow>, found: Lookup<RouterRow>, entry: Reported,
                       relays: RelayStatus, now: int, fullyDeployed: bool): Refresh
  {
    if !relays.upOrHibernating(entry.fingerprint) then Refresh(rows, [])
    else
      var stored := match found
        case Found(row) => row
        case NotFound => Created(entry, now, fullyDeployed);
      var sighting := Sight(stored, entry, relays, now);
      Refresh(rows[entry.fingerprint := sighting.row], sighting.notices)
  }

  /** One entry of the reported list, with the router looked up in the store. */
  function Refreshed(rows: map<string, RouterRow>, entry: Reported, relays: RelayStatus, now: int,
                     fullyDeployed: bool): (r: Refresh)
    ensures var finger := entry.fingerprint;
      && (!relays.upOrHibernating(finger) ==> r == Refresh(rows, []))
      && (relays.upOrHibernating(finger) ==>
            && r.rows.Keys == rows.Keys + {finger}
            && (forall fp :: fp in rows && fp != finger ==> r.rows[fp] == rows[fp])
            && r.rows[finger].up && r.rows[finger].lastSeen == now
            && r.rows[finger].name == entry.name && r.rows[finger].exit == relays.isExit(finger)
            && (finger in rows ==> r.rows[finger].subscriberId == rows[finger].subscriberId)
            && (finger !in rows ==>
                  r.rows[finger].fingerprint == finger && r.rows[finger].subscriberId == None)
            && var welcomedBefore := if finger in rows then rows[finger].welcomed else !fullyDeployed;
               && (r.rows[finger].welcomed <==> welcomedBefore || relays.isStable(finger))
               && (r.notices != [] <==> !welcomedBefore && relays.isStable(finger)
                                        && relays.email(finger) != "")
               && r.notices in {[], [WelcomeNotice(relays.email(finger), finger, entry.name,
                                                    relays.isExit(finger))]})
    ensures Keyed(rows) ==> Keyed(r.rows)
  {
    RefreshWith(rows, LookupRow(rows, entry.fingerprint), entry, relays, now, fullyDeployed)
  }

  /** The second loop: the reported entries in order. */
  function RefreshAll(rows: map<string, RouterRow>, entries: seq<Reported>, relays: RelayStatus,
                      now: int, fullyDeployed: bool): (r: Refresh)
    ensures rows.Keys <= r.rows.Keys
    ensures Keyed(rows) ==> Keyed(r.rows)
    decreases |entries|
  {
    if entries == [] then Refresh(rows, [])
    else
      var before := RefreshAll(rows, entries[..|entries| - 1], relays, now, fullyDeployed);
      var last := Refreshed(before.rows, entries[|entries| - 1], relays, now, fullyDeployed);
      Refresh(last.rows, before.notices + last.notices)
  }

  /** The whole pass over the store's rows, once the deployment stamp is known. */
  function RouterPass(rows: map<string, RouterRow>, relays: RelayStatus, now: int,
                      fullyDeployed: bool): (r: Refresh)
    ensures Keyed(rows) ==> Keyed(r.rows)
  {
    RefreshAll(AgeOut(rows, now), relays.fingerNames, relays, now, fullyDeployed)
  }

  /** The stamp the pass measures deployment from: the stored one, else the current time. */
  function DeploymentTime(stamps: seq<int>, now: int): int
  {
    if stamps == [] then now else stamps[0]
  }

  // ---------------------------------------------------------------------------------------------
  // The store and the pass on it

  ghost function Rows(routers: map<string, Router>): (rows: map<string, RouterRow>)
    reads routers.Values
    ensures rows.Keys == routers.Keys
    ensures forall fp :: fp in routers ==> rows[fp] == routers[fp].Row()
  {
    map fp | fp in routers :: routers[fp].Row()
  }

  ghost function Stamps(deployments: seq<DeployedDatetime>): seq<int>
  {
    seq(|deployments|, k requires 0 <= k < |deployments| => deployments[k].deployed)
  }

  /** The tables the updater reads and writes: routers by fingerprint and the deployment stamps. */
  class Db {
    var routers: map<string, Router>
    var deployments: seq<DeployedDatetime>

    /** The router table's primary key is the fingerprint: each router is stored under its own. */
    ghost predicate Valid()
      reads this
    {
      forall fp :: fp in routers ==> routers[fp].fingerprint == fp
    }

    constructor ()
      ensures Valid() && routers == map[] && deployments == []
    {
      routers := map[];
      deployments := [];
    }
  }

  /** The deployment stamp: read the first stored one, or store the current time when none is. */
  method DeployedStamp(db: Db, now: int) returns (deployed: int)
    modifies db`deployments
    ensures deployed == DeploymentTime(Stamps(old(db.deployments)), now)
    ensures Stamps(db.deployments)
         == if old(db.deployments) == [] then [now] else Stamps(old(db.deployments))
  {
    if |db.deployments| == 0 {
      deployed := now;
      var row := new DeployedDatetime(deployed);
      db.deployments := db.deployments + [row];
    } else {
      deployed := db.deployments[0].deployed;
    }
  }

  /** The first loop's body on one key: an expired router is deleted, any other marked down. */
  function AgeOutOne(rows: map<string, RouterRow>, fp: string, now: int): map<string, RouterRow>
    requires fp in rows
  {
    if Expired(rows[fp], now) then rows - {fp} else rows[fp := rows[fp].(up := false)]
  }

  /** The rows once every key outside `pending` has been through the first loop's body. */
  function AgedSoFar(rows: map<string, RouterRow>, pending: set<string>, now: int)
    : map<string, RouterRow>
  {
    map fp | fp in rows && (fp in pending || !Expired(rows[fp], now)) ::
      if fp in pending then rows[fp] else rows[fp].(up := false)
  }

  /** Taking one more pending key through the body extends the partial pass by that key. */
  lemma AgeOutOneMore(rows: map<string, RouterRow>, pending: set<string>, fp: string, now: int)
    requires fp in pending && fp in rows
    ensures fp in AgedSoFar(rows, pending, now)
    ensures AgeOutOne(AgedSoFar(rows, pending, now), fp, now) == AgedSoFar(rows, pending - {fp}, now)
  {
    var mid := AgedSoFar(rows, pending, now);
    assert mid[fp] == rows[fp];
    var lhs := AgeOutOne(mid, fp, now);
    var rhs := AgedSoFar(rows, pending - {fp}, now);
    assert lhs.Keys == rhs.Keys;
  }

  /** An expired router is deleted from the table. */
  method DeleteRouter(db: Db, fp: string)
    requires db.Valid() && fp in db.routers
    modifies db`routers
    ensures db.Valid() && db.routers == old(db.routers) - {fp}
    ensures Rows(db.routers) == old(Rows(db.routers)) - {fp}
  {
    ghost var before := Rows(db.routers);
    db.routers := db.routers - {fp};
    SameRows(Rows(db.routers), before - {fp});
  }

  /** Any other router is marked down in place; the table itself is unchanged. */
  method MarkDown(db: Db, fp: string)
    requires db.Valid() && fp in db.routers
    modifies db.routers[fp]
    ensures Rows(db.routers) == old(Rows(db.routers))[fp := old(Rows(db.routers))[fp].(up := false)]
  {
    ghost var before := Rows(db.routers);
    ghost var marked := before[fp := before[fp].(up := false)];
    db.routers[fp].up := false;
    ghost var after := Rows(db.routers);
    forall other | other in after
      ensures after[other] == marked[other]
    {
      if other != fp {
        assert db.routers[other].fingerprint == other;
      }
    }
    SameRows(after, marked);
  }

  /** One stored router in the first loop: deleted when expired, otherwise marked down in place
      (the delete and re-add of the same object is an update). */
  method AgeOutRouter(db: Db, fp: string, now: int)
    requires db.Valid() && fp in db.routers
    modifies db`routers, db.routers[fp]
    ensures db.Valid()
    ensures forall other :: other in db.routers ==>
      other in old(db.routers) && db.routers[other] == old(db.routers[other])
    ensures Rows(db.routers) == AgeOutOne(old(Rows(db.routers)), fp, now)
  {
    var router := db.routers[fp];
    if WholeDays(now - router.lastSeen) > 365 {
      DeleteRouter(db, fp);
    } else {
      MarkDown(db, fp);
    }
  }

  /** The first loop, over every stored router. */
  method AgeOutRouters(db: Db, now: int)
    requires db.Valid()
    modifies db`routers, db.routers.Values
    ensures db.Valid()
    ensures forall fp :: fp in db.routers ==> fp in old(db.routers) && db.routers[fp] == old(db.routers[fp])
    ensures Rows(db.routers) == AgeOut(old(Rows(db.routers)), now)
  {
    ghost var before := Rows(db.routers);
    var pending := db.routers.Keys;
    assert AgedSoFar(before, pending, now) == before;
    while pending != {}
      invariant db.Valid()
      invariant forall fp :: fp in db.routers ==> fp in old(db.routers) && db.routers[fp] == old(db.routers[fp])
      invariant pending <= before.Keys
      invariant Rows(db.routers) == AgedSoFar(before, pending, now)
      decreases pending
    {
      var fp :| fp in pending;
      AgeOutOneMore(before, pending, fp, now);
      AgeOutRouter(db, fp, now);
      pending := pending - {fp};
    }
    assert AgedSoFar(before, {}, now) == AgeOut(before, now);
  }

  /** Two row maps with the same keys and the same row under each key are the same map. */
  lemma SameRows(a: map<string, RouterRow>, b: map<string, RouterRow>)
    requires a.Keys == b.Keys
    requires forall fp :: fp in a ==> a[fp] == b[fp]
    ensures a == b
  {
  }

  /** The lookup of a router by fingerprint, as an explicit result rather than an exception. */
  method LookupRouter(db: Db, finger: string) returns (found: Lookup<Router>)
    ensures found.Found? <==> finger in db.routers
    ensures found.Found? ==> found.record == db.routers[finger]
  {
    if finger in db.routers {
      found := Found(db.routers[finger]);
    } else {
      found := NotFound;
    }
  }

  /** The router stored under the fingerprint, or a new one when there is none. */
  method FindOrCreate(db: Db, entry: Reported, now: int, fullyDeployed: bool)
    returns (router: Router)
    requires db.Valid()
    ensures router.fingerprint == entry.fingerprint
    ensures entry.fingerprint in db.routers ==> router == db.routers[entry.fingerprint]
    ensures entry.fingerprint !in db.routers ==>
      fresh(router) && router.Row() == Created(entry, now, fullyDeployed)
  {
    var found := LookupRouter(db, entry.fingerprint);
    match found {
      case Found(r) =>
        router := r;
      case NotFound =>
        router := new Router(now, entry.fingerprint, name := entry.name, welcomed := !fullyDeployed);
    }
  }

  /** The refresh and welcome of one router reported up, in place. */
  method MarkSeen(router: Router, entry: Reported, relays: RelayStatus, now: int)
    returns (notices: seq<Notice>)
    modifies router
    ensures Sighting(router.Row(), notices) == Sight(old(router.Row()), entry, relays, now)
  {
    var finger := entry.fingerprint;
    router.lastSeen := now;
    router.name := entry.name;
    router.up := true;
    router.exit := relays.isExit(finger);
    notices := [];
    if !router.welcomed && relays.isStable(finger) {
      var recipient := relays.email(finger);
      var isExit := relays.isExit(finger);
      if recipient != "" {
        notices := [WelcomeNotice(recipient, finger, entry.name, isExit)];
      }
      router.welcomed := true;
    }
  }

  /** A second store under the same key replaces the first. */
  lemma Overwrite(rows: map<string, RouterRow>, fp: string, first: RouterRow, second: RouterRow)
    ensures rows[fp := first][fp := second] == rows[fp := second]
  {
  }

  /** A router stored under its fingerprint (a no-op for one already stored there). */
  method StoreRouter(db: Db, router: Router)
    requires db.Valid()
    modifies db`routers
    ensures db.Valid() && db.routers == old(db.routers)[router.fingerprint := router]
    ensures Rows(db.routers) == old(Rows(db.routers))[router.fingerprint := router.Row()]
  {
    ghost var before := Rows(db.routers);
    var table := db.routers;
    db.routers := table[router.fingerprint := router];
    ghost var after := Rows(db.routers);
    ghost var expected := before[router.fingerprint := router.Row()];
    forall fp | fp in after
      ensures after[fp] == expected[fp]
    {
    }
    SameRows(after, expected);
  }

  /** The refresh and welcome of the stored router under the entry's fingerprint. */
  method SeeStored(db: Db, entry: Reported, relays: RelayStatus, now: int)
    returns (notices: seq<Notice>)
    requires db.Valid() && entry.fingerprint in db.routers
    modifies db.routers[entry.fingerprint]
    ensures db.Valid() && db.routers == old(db.routers)
    ensures var sighting := Sight(old(Rows(db.routers))[entry.fingerprint], entry, relays, now);
      Rows(db.routers) == old(Rows(db.routers))[entry.fingerprint := sighting.row]
      && notices == sighting.notices
  {
    ghost var before := Rows(db.routers);
    notices := MarkSeen(db.routers[entry.fingerprint], entry, relays, now);
    ghost var after := Rows(db.routers);
    ghost var seen := before[entry.fingerprint := after[entry.fingerprint]];
    forall other | other in after
      ensures after[other] == seen[other]
    {
      if other != entry.fingerprint {
        assert db.routers[other].fingerprint == other;
      }
    }
    SameRows(after, seen);
  }

  /** A router reported up: the stored one, or a new one, is refreshed, welcomed if due and
      stored under its fingerprint. */
  method SightRouter(db: Db, entry: Reported, relays: RelayStatus, now: int, fullyDeployed: bool)
    returns (notices: seq<Notice>)
    requires db.Valid()
    modifies db`routers, db.routers.Values
    ensures db.Valid()
    ensures forall fp :: fp in db.routers ==>
      (fp in old(db.routers) && db.routers[fp] == old(db.routers[fp])) || fresh(db.routers[fp])
    ensures var before := old(Rows(db.routers));
      var stored := if entry.fingerprint in before then before[entry.fingerprint]
                    else Created(entry, now, fullyDeployed);
      var sighting := Sight(stored, entry, relays, now);
      Rows(db.routers) == before[entry.fingerprint := sighting.row] && notices == sighting.notices
  {
    ghost var before := Rows(db.routers);
    var router := FindOrCreate(db, entry, now, fullyDeployed);
    ghost var stored := router.Row();
    StoreRouter(db, router);
    notices := SeeStored(db, entry, relays, now);
    Overwrite(before, entry.fingerprint, stored, Sight(stored, entry, relays, now).row);
    forall fp | fp in db.routers
      ensures (fp in old(db.routers) && db.routers[fp] == old(db.routers[fp])) || fresh(db.routers[fp])
    {
      if fp == entry.fingerprint {
        assert db.routers[fp] == router;
      }
    }
  }

  /** One entry of the reported list, on the store: a router reported up is refreshed (see
      `SightRouter`); any other entry changes nothing. */
  method RefreshRouter(db: Db, entry: Reported, relays: RelayStatus, now: int, fullyDeployed: bool)
    returns (notices: seq<Notice>)
    requires db.Valid()
    modifies db`routers, db.routers.Values
    ensures db.Valid()
    ensures forall fp :: fp in db.routers ==>
      (fp in old(db.routers) && db.routers[fp] == old(db.routers[fp])) || fresh(db.routers[fp])
    ensures Refresh(Rows(db.routers), notices)
         == Refreshed(old(Rows(db.routers)), entry, relays, now, fullyDeployed)
  {
    notices := [];
    if relays.upOrHibernating(entry.fingerprint) {
      notices := SightRouter(db, entry, relays, now, fullyDeployed);
    }
  }

  /** The second loop: every reported entry in order, each appending its welcome, if any. */
  method RefreshRouters(db: Db, entries: seq<Reported>, relays: RelayStatus, now: int,
                        fullyDeployed: bool, emailList: seq<Notice>)
    returns (emails: seq<Notice>)
    requires db.Valid()
    modifies db`routers, db.routers.Values
    ensures db.Valid()
    ensures var pass := RefreshAll(old(Rows(db.routers)), entries, relays, now, fullyDeployed);
            Rows(db.routers) == pass.rows && emails == emailList + pass.notices
  {
    ghost var start := Rows(db.routers);
    ghost var done := Refresh(start, []);
    emails := emailList;
    for i := 0 to |entries|
      invariant db.Valid()
      invariant forall fp :: fp in db.routers ==>
        (fp in old(db.routers) && db.routers[fp] == old(db.routers[fp])) || fresh(db.routers[fp])
      invariant done == RefreshAll(start, entries[..i], relays, now, fullyDeployed)
      invariant Rows(db.routers) == done.rows && emails == emailList + done.notices
    {
      var notices := RefreshRouter(db, entries[i], relays, now, fullyDeployed);
      RefreshAllStep(start, entries, i, relays, now, fullyDeployed);
      Appended(emailList, done.notices, notices);
      done := Refresh(Rows(db.routers), done.notices + notices);
      emails := emails + notices;
    }
    assert entries[..|entries|] == entries;
  }

  /** The second loop's pass over one more entry. */
  lemma RefreshAllStep(rows: map<string, RouterRow>, entries: seq<Reported>, i: nat,
                       relays: RelayStatus, now: int, fullyDeployed: bool)
    requires i < |entries|
    ensures var done := RefreshAll(rows, entries[..i], relays, now, fullyDeployed);
      var last := Refreshed(done.rows, entries[i], relays, now, fullyDeployed);
      RefreshAll(rows, entries[..i + 1], relays, now, fullyDeployed)
        == Refresh(last.rows, done.notices + last.notices)
  {
    assert entries[..i + 1][..i] == entries[..i];
  }

  /** `update_all_routers`: the deployment stamp, the first loop over the stored routers, then the
      second loop over the reported list. */
  method UpdateAllRouters(db: Db, relays: RelayStatus, now: int, emailList: seq<Notice>)
    returns (emails: seq<Notice>)
    requires db.Valid()
    modifies db, db.routers.Values
    ensures db.Valid()
    ensures Stamps(db.deployments)
         == if old(db.deployments) == [] then [now] else Stamps(old(db.deployments))
    ensures var fully := FullyDeployed(DeploymentTime(Stamps(old(db.deployments)), now), now);
            var pass := RouterPass(old(Rows(db.routers)), relays, now, fully);
            Rows(db.routers) == pass.rows && emails == emailList + pass.notices
  {
    ghost var start := Rows(db.routers);
    var deployed := DeployedStamp(db, now);
    var fullyDeployed := !(WholeDays(now - deployed) < 2);
    assert Rows(db.routers) == start;
    AgeOutRouters(db, now);
    ghost var stamps := Stamps(db.deployments);
    emails := RefreshRouters(db, relays.fingerNames, relays, now, fullyDeployed, emailList);
    assert Stamps(db.deployments) == stamps;
  }
}
