# Tor Weather updater, modelled in Dafny

Tor Weather tells relay operators when their relay needs attention. Subscribers sign up for one of several
subscription types:

- node down: the relay has been unreachable for longer than a grace period;
- low bandwidth: the relay's bandwidth is under a threshold;
- outdated version: the relay runs an obsolete Tor version;
- DNS failure: no rule exists for it yet.

A periodic updater does two jobs. It walks every stored subscription and decides, from the relay-status source, whether to
queue a notification. It also reconciles the router table with the list of relays currently reported:

- it ages out routers not seen for more than 365 days;
- it marks the others down;
- it refreshes or creates every router reported up;
- it queues a one-time welcome for stable relays with a contact address.

This project models both jobs and the schema they work on:

- `model.dfy` (module `Model`): the records of the schema.
  - Routers, subscribers, the four subscription kinds and the deployment stamp.
  - Their constructor and column defaults.
  - The fingerprint-spacing helper.
  - The deterministic finish of the random token.
  - Rows the updater changes in place are classes; each has a `Row()` value view.
- `collaborators.dfy` (module `Collaborators`): the parts the updater calls but does not contain.
  - The relay-status source is one snapshot of answers per pass, given as functions of the fingerprint.
  - The notification builders become a `Notice` record of the arguments they were given.
- `subscriptions.dfy` (module `Subscriptions`): the subscription checks.
  - Each check is one step function on a row and a pass function over the rows.
  - Each has a method that mutates the row objects in a loop and is proved to perform that pass.
  - The methods extend the notification list and are proved to only append.
- `routers.dfy` (module `Routers`): the router reconciliation.
  - A `Db` class holds the router table as a map from fingerprint to `Router` object, plus the deployment stamps.
  - `Db.Valid()` keeps every router under its own fingerprint, the table's primary key.
  - `UpdateAllRouters` is proved to perform the value-level `RouterPass`. Its parts are the ageing loop and the loop over the reported relays.
- `subscription_properties.dfy` and `router_properties.dfy`: what the rules promise over one pass and over runs of passes.
  - Duplicate suppression, re-arming, and unparsed versions being invisible.
  - Welcomes at most once.
  - The outcome of the router pass for each router.

Conventions:

- Time is whole seconds (`int`), with one clock reading `now` per pass.
- `timedelta.days` is floor division by 86400. Dafny's `/` agrees with it because the divisor is positive.
- `is_grace_passed` is not defined in the code and is a parameter `gracePassed(lastChanged, gracePd, now)`.
- The subscriber's confirmation status is an input per subscription.
  - The node-down check calls `confirmed()`.
  - The bandwidth and version checks read `confirmed` as an attribute, which is always truthy if `confirmed` is a method.
  - `ConfirmedAttribute(info, confirmedIsMethod)` states that reading. `confirmedIsMethod` tells whether `confirmed` is a method or a stored flag.
  - If `confirmed` is a stored flag, the call `confirmed()` at weather/updater.py:16 raises a TypeError on the first node-down row, and `check_all_subs` stops there. `CheckAllSubs` returns this as `raised`.

## Model

| member | source | states |
|---|---|---|
| Model.FindAllQuads | app/model.py:22 | every group `re.findall('.{4}', …)` returns has exactly four characters and no newline |
| Model.InsertFingerprintSpaces | app/model.py:21-22 | an input shorter than four characters is shown as the empty string |
| Model.QuadsOfLine | app/model.py:22 | on a newline-free string there are ⌊n/4⌋ groups, the j-th being characters 4j..4j+3 |
| Model.QuadsJoinedArePrefix | app/model.py:21-22 | on a newline-free string, removing the spaces gives back the input's prefix of length 4·⌊n/4⌋; a remainder under four characters is dropped |
| Model.JoinQuadsAt | app/model.py:22 | joining four-character groups with single spaces gives length 5k−1, a space at every position ≡ 4 (mod 5) and the group characters elsewhere |
| Model.SpacedCharacters | app/model.py:21-22 | on a newline-free string, the spaced form's length is 5·⌊n/4⌋−1 (0 under four characters); position i is a space when i mod 5 = 4 and otherwise input character 4·⌊i/5⌋ + i mod 5 |
| Model.SpacedFullFingerprint | app/model.py:74-75 | a 40-character fingerprint is shown as ten groups, 49 characters in all |
| Model.ReplaceAll | app/model.py:28 | `bytes.replace` keeps the length and rewrites exactly the occurrences of one byte |
| Model.GetRandString | app/model.py:27-29 | the token never ends in '-'; if the encoded value ended in '-', every '-' became 'x' and nothing else changed; otherwise the value is returned as is; the length is kept |
| Model.Router.constructor | app/model.py:53-69 | a new router has name "Unnamed", welcomed false, up true, exit false, the given subscriber id and last_seen = now unless given |
| Model.Subscriber.constructor | app/model.py:88-91 | a new subscriber has the given email and sub_date = now |
| Model.DeployedDatetime.constructor | app/model.py:196-198 | the stamp holds the given time |
| Model.NodeDownSub.constructor | app/model.py:130-132 | a fresh random id; emailed and triggered default to false, last_changed to the insertion time |
| Model.BandwithSub.constructor | app/model.py:164 | a fresh random id; threshold defaults to 20, emailed to false |
| Model.OutdatedVersionSub.constructor | app/model.py:150 | a fresh random id; notify_type defaults to "OBSOLETE", emailed to false |
| Model.DNSFailSub.constructor | app/model.py:101-105 | a fresh random id; emailed defaults to false |
| Subscriptions.NodeDownStep | weather/updater.py:14-40 | triggered becomes "not confirmed"; last_changed is restamped exactly when triggered flips; confirmation clears emailed; while unconfirmed, emailed rises once the grace check passes on the fresh stamp; a notice with the row's recipient, router and grace period goes out exactly when emailed rises; "emailed implies triggered" is preserved |
| Subscriptions.EvaluateNodeDown | weather/updater.py:15-43 | the loop body on one row object performs `NodeDownStep` in place and returns its notice |
| Subscriptions.CheckNodeDown | weather/updater.py:11-46 | every row ends as its step gives it, and the list gains exactly the pass's notices, in row order, after its prior entries |
| Subscriptions.BandwidthStep | weather/updater.py:53-72 | for a subscriber passing the confirmation test, emailed becomes "reading below threshold"; otherwise nothing changes; a notice with the reading and threshold goes out exactly when emailed rises |
| Subscriptions.EvaluateBandwidth | weather/updater.py:53-76 | the loop body on one row object performs `BandwidthStep` in place |
| Subscriptions.CheckLowBandwith | weather/updater.py:49-78 | every row ends as its step gives it; the list gains exactly the pass's notices after its prior entries |
| Subscriptions.VersionStep | weather/updater.py:85-112 | for a subscriber passing the confirmation test (`ConfirmedAttribute`) and a parsed classification, emailed becomes "classification is OBSOLETE"; 'ERROR' or failing the test changes nothing; a notice goes out exactly when emailed rises |
| Subscriptions.EvaluateVersion | weather/updater.py:85-116 | the loop body on one row object performs `VersionStep` in place |
| Subscriptions.CheckVersion | weather/updater.py:81-118 | every row ends as its step gives it; the list gains exactly the pass's notices after its prior entries |
| Subscriptions.CheckDnsFailure | weather/updater.py:121-122 | the list is left unchanged |
| Subscriptions.ConfirmedAttribute | weather/updater.py:56 | the attribute test always passes when `confirmed` is a method (a bound method is truthy), and otherwise is exactly the stored flag; the version check reads it the same way at :85 |
| Subscriptions.EmitOne | weather/updater.py:39 | appending one row's notice to the list extends the notices of the earlier rows by that notice, in row order; the bandwidth and version loops append the same way at :69 and :105 |
| Subscriptions.EvaluateNodeDownAt | weather/updater.py:15-43 | the loop body on the row at index i performs `NodeDownStep` on that row and leaves every other row as it was |
| Subscriptions.EvaluateBandwidthAt | weather/updater.py:53-76 | the loop body on the row at index i performs `BandwidthStep` on that row and leaves every other row as it was |
| Subscriptions.EvaluateVersionAt | weather/updater.py:85-116 | the loop body on the row at index i performs `VersionStep` on that row and leaves every other row as it was |
| Subscriptions.CheckAllSubs | weather/updater.py:125-129 | `raised` holds iff `confirmed` is a stored flag and there is a node-down row, since the call at :16 then raises a TypeError; in that case no row changes and nothing is appended; otherwise the three checks run in order on disjoint rows and the list gains the node-down, then version, then bandwidth notices |
| SubscriptionProperties.BandwidthNoticesAreDrops | weather/updater.py:56-72 | over a run of passes, one notice per drop below the threshold (counted from the stored flag), and emailed ends up telling whether the last reading was low |
| SubscriptionProperties.LowBandwidthNotifiesOnce | weather/updater.py:58-70 | while readings stay low, exactly one notice (with the first reading) goes out if none was recorded, none otherwise, and emailed stays set |
| SubscriptionProperties.DipRecoverDip | weather/updater.py:58-72 | readings 19, 21, 19 against the default threshold 20 notify twice: recovery re-arms the row |
| SubscriptionProperties.VersionNoticesAreRises | weather/updater.py:90-109 | over a run, one notice each time the parsed classification turns OBSOLETE, with 'ERROR' readings skipped |
| SubscriptionProperties.UnparsedVersionChangesNothing | weather/updater.py:110-112 | a run of 'ERROR' classifications leaves the row as it was and sends nothing |
| SubscriptionProperties.OutageNotifiesAtMostOnce | weather/updater.py:22-40 | during an outage the row stays triggered with the outage's first stamp, and at most one notice goes out: exactly one iff none was recorded and the grace period from that stamp passes at some pass |
| SubscriptionProperties.ConfirmationRearms | weather/updater.py:16-20 | a pass that sees the subscriber confirmed leaves the row neither triggered nor emailed, for a row where emailed implies triggered, as every stored row is (`NodeDownConsistent`, which `NodeDownStep` preserves) |
| Routers.WholeDays | weather/updater.py:141 | `timedelta.days` of a span in seconds: the largest d with d·86400 ≤ span |
| Routers.FullyDeployed | weather/updater.py:141-144 | fully deployed iff at least two whole days (172800 s) have passed since the stamp |
| Routers.Expired | weather/updater.py:148 | a router ages out iff more than 365 whole days, that is at least 366·86400 s, have passed since last_seen |
| Routers.AgeOut | weather/updater.py:146-156 | the first loop keeps exactly the unexpired routers, each marked down with nothing else changed, and keeps the primary-key agreement |
| Routers.DeployedStamp | weather/updater.py:133-139 | the first stored stamp is used; a stamp of now is stored only when none exists |
| Routers.DeleteRouter | weather/updater.py:148-149 | an expired router is removed from the table |
| Routers.MarkDown | weather/updater.py:150-154 | the aliased router object is marked down in place and every other row is unchanged |
| Routers.AgeOutRouter | weather/updater.py:147-156 | one stored router is deleted or marked down, as `AgeOut` does for it; no router object is replaced |
| Routers.AgeOutRouters | weather/updater.py:146-156 | the loop over all stored routers leaves the table as `AgeOut` of the old one, with the same router objects |
| Routers.LookupRow | weather/updater.py:168 | the lookup by fingerprint finds a row iff one is stored, and then it is that row |
| Routers.LookupRouter | weather/updater.py:168 | the same lookup on the store, returning the stored object |
| Routers.FindOrCreate | weather/updater.py:165-176 | the stored router for the fingerprint, or a fresh one named as reported, welcomed iff not fully deployed |
| Routers.MarkSeen | weather/updater.py:177-190 | the router is refreshed in place (last_seen, name, up, exit), and welcomed with a notice as `Sight` specifies |
| Routers.StoreRouter | weather/updater.py:192 | the router is stored under its own fingerprint, keeping the primary-key agreement |
| Routers.SeeStored | weather/updater.py:177-192 | refreshing the stored object changes that one row, as `Sight` gives it, and no other |
| Routers.SightRouter | weather/updater.py:165-193 | a router reported up ends as the sighting of the stored or newly created row, under its fingerprint; other rows are kept |
| Routers.Refreshed | weather/updater.py:164-193 | an entry not up changes nothing; one up adds or updates only its own row: up, last_seen now, reported name and exit, subscriber link kept; welcomed iff it was (new ones: iff not fully deployed) or the relay is stable; a welcome (to the relay's contact) goes out iff it was not welcomed, is stable and has a contact address |
| Routers.Created | weather/updater.py:172-175 | a router the second loop creates has the reported fingerprint and name, is seen now, up, not an exit and unlinked, and is welcomed iff not fully deployed |
| Routers.Sight | weather/updater.py:177-190 | a sighting sets last_seen to now, the reported name, up and the exit flag, and changes nothing else except welcomed; welcomed ends true iff it was or the relay is stable; a welcome goes out iff the router was not welcomed, the relay is stable and has a contact, and it is addressed to that contact with the reported name and exit flag |
| Routers.RefreshRouter | weather/updater.py:164-193 | one entry on the store performs `Refreshed` |
| Routers.RefreshAll | weather/updater.py:160-193 | the second loop over the reported list keeps every fingerprint already stored and the primary-key agreement; what it does to each router is stated by `RefreshAllKeeps`, `RefreshAllSeen`, `RefreshAllNames` and `WelcomesBounded` |
| Routers.RouterPass | weather/updater.py:146-193 | the ageing loop then the second loop keep the primary-key agreement; the outcome per router is stated by `RouterPassOutcome` and `AtMostOneWelcomePerPass` |
| Routers.RefreshRouters | weather/updater.py:158-193 | the second loop performs `RefreshAll` over the reported list and appends its notices after the list's prior entries |
| Routers.UpdateAllRouters | weather/updater.py:132-195 | the whole update performs `RouterPass` with the deployment decision of the stored stamp, stores a stamp only when none exists, and only appends to the list |
| RouterProperties.RefreshAllKeeps | weather/updater.py:158-193 | after the second loop the table holds the old routers plus one per fingerprint reported up; routers not reported up are untouched |
| RouterProperties.RefreshAllSeen | weather/updater.py:177-181 | every router reported up ends the loop up, seen now, with the reported exit flag |
| RouterProperties.RefreshAllNames | weather/updater.py:179 | a router reported up carries the name of the last entry for its fingerprint |
| RouterProperties.RouterPassOutcome | weather/updater.py:146-181 | after the pass, routers reported up are up and seen now; every other router still stored was there, is unexpired and is only marked down; a stored router not reported up survives iff unexpired |
| RouterProperties.WelcomesBounded | weather/updater.py:183-190 | welcomes for a router within the loop plus its remaining welcomability never exceed its welcomability before: at most one, and none for a welcomed router |
| RouterProperties.WelcomeLeavesWelcomed | weather/updater.py:183-190 | a router welcomed in the loop ends stored, welcomed and seen now |
| RouterProperties.AtMostOneWelcomePerPass | weather/updater.py:183-190 | one pass welcomes a router at most once, and never one stored welcomed and unexpired |
| RouterProperties.NoSecondWelcome | weather/updater.py:146-190 | two passes less than 366 days apart welcome a router at most once between them |
| RouterProperties.RefreshedAsWritten | weather/updater.py:165-193 | as written, an entry reported up whose fingerprint is stored fails at the commit (duplicate primary key), leaving the table as it was; any other entry does what the intended `Refreshed` does; for an entry reported up, a welcome is appended iff fully deployed, stable and with a contact, whatever is stored |
| RouterProperties.RefreshAllAsWritten | weather/updater.py:160-193 | the second loop as written processes the entries in order up to the first failed commit, never removes a stored router, and when no commit fails equals the intended `RefreshAll` |
| RouterProperties.RouterPassAsWritten | weather/updater.py:146-193 | the pass as written keeps every router the ageing loop keeps, and when no commit fails it equals the intended `RouterPass` |
| RouterProperties.AsWrittenAbortsOnStored | weather/updater.py:167-193 | as written, the second loop fails whenever some entry reported up has a fingerprint already stored |
| RouterProperties.AsWrittenWelcomesThenAborts | weather/updater.py:171-193 | for a stored, welcomed, stable relay with a contact, once fully deployed, the code as written appends a welcome (:188) and then fails at the commit with the table unchanged; the intended lookup sends nothing and refreshes the stored row |
| RouterProperties.AsWrittenSecondPassAborts | weather/updater.py:146-193 | as written, after a pass that completes with a relay reported up, a pass less than 366 days later that reports it up again fails |

## Left out

- The SQL session, `commit` and the delete-then-add pairs are not modelled. Each pair re-adds the aliased object, which makes it an in-place update of that object, and the model does it that way.
- Persistence and transactions are not modelled. The one failed commit that matters (an insert repeating a stored primary key at weather/updater.py:192-193) is modelled as the aborted outcome of `RouterProperties.RefreshedAsWritten`; the exception it raises is not otherwise modelled.
- The clock is not modelled. Each pass takes one integer `now`, where the code reads `datetime.now()` several times within a pass.
- `hours_since` is not modelled, because it uses floating-point division and the core does not call it.
- `os.urandom` and base64 encoding in `get_rand_string` are not modelled. The encoded text is a parameter, and only the '-' to 'x' finish is modelled.
- The relay-status source (`CtlUtil`) is a snapshot of functions per pass. Its own queries are not part of this model.
- The notification builders are not modelled. Each notice is a record of the builder's arguments, without message text.
- `is_grace_passed` is not defined in the code, so it is the uninterpreted parameter `gracePassed`.
- The confirmation status is an input boolean, since `Subscriber` in app/model.py has no `confirmed` member. The attribute-versus-method reading is the `confirmedIsMethod` parameter.
- Subscriptions.CheckNodeDown: reads `info.confirmed` as the value the call `confirmed()` returns, so it assumes `confirmed` is a method. The TypeError raised when `confirmed` is a stored flag is modelled only in `Subscriptions.CheckAllSubs`, as `raised`: no row changes, nothing is appended, and the later checks do not run. The exception itself is not modelled.
- `logging` is not modelled: the unparsed-version branch only logs, and the model changes nothing there.
- `run_all` and the unimplemented mass-mail send are not modelled, because they are I/O orchestration.
- The shared `email_list` is not shared. It is passed in and returned as a value, and `CheckAllSubs` returns the extended list, whereas `check_all_subs` returns None and mutates the caller's list.
- The subscription queries return the rows of a table, so the checks require their row sequences to hold distinct objects.
- The bandwidth reading is an integer, and the threshold comparison is `<` as in the code.
- `str()` on fingerprints is not modelled.
- `SubscriberInfo` stands for ORM relations app/model.py does not define. There, `Subscription` has a `router` relation but no `subscriber` one (its `subscriber_id` is commented out), and `Subscriber` has no `router`, `unsubs_auth` or `pref_auth` members. The model assumes a relation `sub.subscriber` yielding those values, as weather/updater.py reads them.
- The module path is not modelled: the updater imports `weather.model`, and app/model.py is taken as that schema.
- `Router.objects.all()` at weather/updater.py:146 is read as "all stored routers". As written, the SQLAlchemy model has no `objects` attribute, so that line raises; the model and the finding below describe the loop it evidently means.
- The uniqueness of `Subscriber` by email is not modelled, because no modelled operation stores subscribers. The router table's key is `Db.Valid()`.
- The `__repr__` methods are not modelled.
- Engine setup, `create_all` and the polymorphic mapper configuration are not modelled.
- The second loop of `Routers.UpdateAllRouters` is modelled with the intended lookup, a found-or-not-found result. The lookup as written, and the failed commit it leads to, are modelled in `RouterProperties` (`RefreshedAsWritten`, `RefreshAllAsWritten`, `RouterPassAsWritten`); see Findings.

## Findings

| source | as written | input that shows it | evidently intended | confidence | as-written member | corrected member |
|---|---|---|---|---|---|---|
| weather/updater.py:167-193 | reading :146 `Router.objects.all()` (a Django idiom; the SQLAlchemy model has no `objects`, so as written it raises first) as "all stored routers": the lookup `Router.query.filter_all(fingerprint=finger).first()` always raises (the query has no `filter_all`; a real lookup returning None would make `delete(None)` raise too), so the `except` branch builds a second router even for a fingerprint already stored, and the stored row is never deleted; the commit at :193 then inserts a duplicate primary key and fails | a relay stored with welcomed true, reported up and stable, with a contact address, on a pass at least two days after deployment: a welcome is appended (:188), then the commit fails and `update_all_routers` raises, leaving the rest of the reported list unprocessed; every later pass that reports the relay up while it is stored and unexpired fails the same way | look the router up by fingerprint; refresh the stored one and create one only when none is stored, so every pass completes and a relay is welcomed at most once | medium; not executed | RouterProperties.AsWrittenWelcomesThenAborts | RouterProperties.NoSecondWelcome |
