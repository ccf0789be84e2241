/** The schema of the weather service (app/model.py): the router, subscriber, subscription and
    deployment-stamp records, their constructor and column defaults, and the two small pure helpers
    the module defines (spacing a fingerprint, finishing a random token).

    Timestamps are whole seconds (`int`). Rows that the updater changes in place are classes;
    each has a `Row()` value view that the specifications talk about. */
module Model {

  datatype Option<T> = None | Some(value: T)

  newtype byte = x: int | 0 <= x < 256

  /** ASCII '-' and 'x', the two bytes the token rewrite deals with. */
  const DASH: byte := 45
  const LOWER_X: byte := 120

  // ---------------------------------------------------------------------------------------------
  // insert_fingerprint_spaces

  /** `re.findall('.{4}', s)`: the non-overlapping runs of four characters, scanned from the left.
      `.` does not match a newline, so a window holding one is skipped one character at a time. */
  function FindAllQuads(s: string): (groups: seq<string>)
    ensures forall k :: 0 <= k < |groups| ==> |groups[k]| == 4 && '\n' !in groups[k]
    decreases |s|
  {
    if |s| < 4 then []
    else if '\n' in s[..4] then FindAllQuads(s[1..])
    else [s[..4]] + FindAllQuads(s[4..])
  }

  /** `sep.join(groups)`. */
  function Join(groups: seq<string>, sep: string): string
  {
    if groups == [] then ""
    else if |groups| == 1 then groups[0]
    else groups[0] + sep + Join(groups[1..], sep)
  }

  /** The fingerprint in groups of four separated by single spaces; a trailing remainder of fewer
      than four characters is dropped. */
  function InsertFingerprintSpaces(fingerprint: string): (spaced: string)
    ensures |fingerprint| < 4 ==> spaced == ""
  {
    Join(FindAllQuads(fingerprint), " ")
  }

  /** On text without a newline every window matches, so the groups are the consecutive quads. */
  lemma {:induction false} QuadsOfLine(s: string)
    requires '\n' !in s
    ensures |FindAllQuads(s)| == |s| / 4
    ensures forall j :: 0 <= j < |s| / 4 ==> FindAllQuads(s)[j] == s[4 * j .. 4 * j + 4]
    decreases |s|
  {
    if |s| >= 4 {
      assert '\n' !in s[..4] by {
        forall k | 0 <= k < 4 ensures s[..4][k] != '\n' { assert s[..4][k] == s[k]; }
      }
      assert '\n' !in s[4..] by {
        forall k | 0 <= k < |s| - 4 ensures s[4..][k] != '\n' { assert s[4..][k] == s[k + 4]; }
      }
      QuadsOfLine(s[4..]);
      var groups := FindAllQuads(s);
      assert groups == [s[..4]] + FindAllQuads(s[4..]);
      forall j | 0 <= j < |s| / 4 ensures groups[j] == s[4 * j .. 4 * j + 4] {
        if j > 0 {
          assert groups[j] == FindAllQuads(s[4..])[j - 1];
          assert s[4..][4 * (j - 1) .. 4 * (j - 1) + 4] == s[4 * j .. 4 * j + 4];
        }
      }
    }
  }

  /** Joining the groups without a separator gives back the input up to its last whole quad. */
  lemma {:induction false} QuadsJoinedArePrefix(s: string)
    requires '\n' !in s
    ensures Join(FindAllQuads(s), "") == s[..|s| / 4 * 4]
    decreases |s|
  {
    if |s| >= 4 {
      assert '\n' !in s[..4] by {
        forall k | 0 <= k < 4 ensures s[..4][k] != '\n' { assert s[..4][k] == s[k]; }
      }
      assert '\n' !in s[4..] by {
        forall k | 0 <= k < |s| - 4 ensures s[4..][k] != '\n' { assert s[4..][k] == s[k + 4]; }
      }
      QuadsJoinedArePrefix(s[4..]);
      var rest := FindAllQuads(s[4..]);
      assert FindAllQuads(s) == [s[..4]] + rest;
      assert Join([s[..4]] + rest, "") == s[..4] + Join(rest, "");
      assert s[4..][..(|s| - 4) / 4 * 4] == s[4 .. |s| / 4 * 4];
      assert s[..4] + s[4 .. |s| / 4 * 4] == s[..|s| / 4 * 4];
    }
  }

  /** Groups of four joined by single spaces: a space after every fourth character. */
  lemma {:induction false} JoinQuadsAt(groups: seq<string>)
    requires forall k :: 0 <= k < |groups| ==> |groups[k]| == 4
    ensures |Join(groups, " ")| == (if groups == [] then 0 else 5 * |groups| - 1)
    ensures forall i :: 0 <= i < |Join(groups, " ")| ==>
      Join(groups, " ")[i] == (if i % 5 == 4 then ' ' else groups[i / 5][i % 5])
  {
    if |groups| > 1 {
      var rest := groups[1..];
      JoinQuadsAt(rest);
      var joined := Join(groups, " ");
      assert joined == groups[0] + " " + Join(rest, " ");
      forall i | 0 <= i < |joined|
        ensures joined[i] == (if i % 5 == 4 then ' ' else groups[i / 5][i % 5])
      {
        if i >= 5 {
          assert joined[i] == Join(rest, " ")[i - 5];
          assert (i - 5) % 5 == i % 5 && (i - 5) / 5 == i / 5 - 1;
        }
      }
    }
  }

  /** The spaced form of a newline-free fingerprint, character by character: position `i` holds a
      space when `i % 5 == 4` and otherwise the input character it stands for. */
  lemma SpacedCharacters(s: string)
    requires '\n' !in s
    ensures var spaced := InsertFingerprintSpaces(s);
      && |spaced| == (if |s| < 4 then 0 else 5 * (|s| / 4) - 1)
      && forall i :: 0 <= i < |spaced| ==>
           spaced[i] == (if i % 5 == 4 then ' ' else s[i / 5 * 4 + i % 5])
  {
    var groups := FindAllQuads(s);
    QuadsOfLine(s);
    JoinQuadsAt(groups);
    var spaced := InsertFingerprintSpaces(s);
    forall i | 0 <= i < |spaced| && i % 5 != 4 ensures spaced[i] == s[i / 5 * 4 + i % 5] {
      assert spaced[i] == groups[i / 5][i % 5];
      assert groups[i / 5] == s[4 * (i / 5) .. 4 * (i / 5) + 4];
    }
  }

  /** A full 40-digit relay fingerprint is shown as ten groups, 49 characters in all. */
  lemma SpacedFullFingerprint(s: string)
    requires |s| == 40 && '\n' !in s
    ensures |FindAllQuads(s)| == 10
    ensures |InsertFingerprintSpaces(s)| == 49
  {
    QuadsOfLine(s);
    JoinQuadsAt(FindAllQuads(s));
  }

  // ---------------------------------------------------------------------------------------------
  // get_rand_string

  /** `bytes.replace(from, to)`: every occurrence of `from` becomes `to`. */
  function ReplaceAll(s: seq<byte>, from: byte, to: byte): (r: seq<byte>)
    ensures |r| == |s|
    ensures forall i :: 0 <= i < |s| ==> r[i] == (if s[i] == from then to else s[i])
  {
    if s == [] then [] else [if s[0] == from then to else s[0]] + ReplaceAll(s[1..], from, to)
  }

  predicate EndsWithDash(s: seq<byte>)
  {
    |s| > 0 && s[|s| - 1] == DASH
  }

  /** The deterministic finish of `get_rand_string`: `encoded` is the URL-safe base64 text of the
      random bytes; if it ends in '-', every '-' is rewritten to 'x', otherwise it is kept. */
  function GetRandString(encoded: seq<byte>): (token: seq<byte>)
    ensures |token| == |encoded|
    ensures !EndsWithDash(token)
    ensures EndsWithDash(encoded) ==> DASH !in token
    ensures EndsWithDash(encoded) ==>
      forall i :: 0 <= i < |encoded| ==> token[i] == (if encoded[i] == DASH then LOWER_X else encoded[i])
    ensures !EndsWithDash(encoded) ==> token == encoded
  {
    if EndsWithDash(encoded) then ReplaceAll(encoded, DASH, LOWER_X) else encoded
  }

  // ---------------------------------------------------------------------------------------------
  // Router

  datatype RouterRow = RouterRow(
    fingerprint: string,
    name: string,
    welcomed: bool,
    lastSeen: int,
    up: bool,
    exit: bool,
    subscriberId: Option<string>)

  /** The row `Router(...)` builds, with the constructor's keyword defaults; `now` is the clock
      reading used when `last_seen` is not supplied. */
  function NewRouterRow(now: int, fingerprint: string, subscriber: Option<string> := None,
                        name: string := "Unnamed", welcomed: bool := false,
                        lastSeen: Option<int> := None, up: bool := true,
                        exit: bool := false): RouterRow
  {
    RouterRow(fingerprint, name, welcomed, if lastSeen.Some? then lastSeen.value else now,
              up, exit, subscriber)
  }

  class Router {
    /** The primary key; nothing in the service ever changes it. */
    const fingerprint: string
    var name: string
    var welcomed: bool
    var lastSeen: int
    var up: bool
    var exit: bool
    var subscriberId: Option<string>

    constructor (now: int, fingerprint: string, subscriber: Option<string> := None,
                 name: string := "Unnamed", welcomed: bool := false,
                 lastSeen: Option<int> := None, up: bool := true, exit: bool := false)
      ensures Row() == NewRouterRow(now, fingerprint, subscriber, name, welcomed, lastSeen, up, exit)
    {
      this.fingerprint := fingerprint;
      this.welcomed := welcomed;
      this.name := name;
      this.lastSeen := if lastSeen.Some? then lastSeen.value else now;
      this.up := up;
      this.exit := exit;
      this.subscriberId := subscriber;
    }

    function Row(): RouterRow
      reads this
    {
      RouterRow(fingerprint, name, welcomed, lastSeen, up, exit, subscriberId)
    }
  }

  // ---------------------------------------------------------------------------------------------
  // Subscriber and DeployedDatetime

  class Subscriber {
    const email: string
    var subDate: int

    constructor (email: string, now: int)
      ensures this.email == email && subDate == now
    {
      this.email := email;
      subDate := now;
    }
  }

  class DeployedDatetime {
    const deployed: int

    constructor (deployed: int)
      ensures this.deployed == deployed
    {
      this.deployed := deployed;
    }
  }

  // ---------------------------------------------------------------------------------------------
  // Subscriptions

  /** What an evaluator reads through `sub.subscriber`: the recipient, the authorisation tokens of
      the unsubscribe and preferences links, the subscriber's router, and the confirmation status. */
  datatype SubscriberInfo = SubscriberInfo(
    email: string,
    confirmed: bool,
    unsubsAuth: string,
    prefAuth: string,
    fingerprint: string,
    routerName: string)

  datatype NodeDownRow = NodeDownRow(
    subscriber: SubscriberInfo,
    gracePd: int,
    emailed: bool,
    triggered: bool,
    lastChanged: int)

  datatype BandwidthRow = BandwidthRow(subscriber: SubscriberInfo, threshold: int, emailed: bool)

  datatype VersionRow = VersionRow(subscriber: SubscriberInfo, notifyType: string, emailed: bool)

  /** A node-down row never records a notice without an outage in progress. */
  predicate NodeDownConsistent(row: NodeDownRow)
  {
    row.emailed ==> row.triggered
  }

  class NodeDownSub {
    const id: seq<byte>
    const subscriber: SubscriberInfo
    const gracePd: int
    var emailed: bool
    var triggered: bool
    var lastChanged: int

    /** The row as stored: `id` defaults to a fresh random token (finished from `encodedToken`),
        `emailed` and `triggered` to false, `last_changed` to the insertion time. */
    constructor (encodedToken: seq<byte>, subscriber: SubscriberInfo, gracePd: int, now: int,
                 emailed: bool := false, triggered: bool := false, lastChanged: Option<int> := None)
      ensures id == GetRandString(encodedToken)
      ensures Row() == NodeDownRow(subscriber, gracePd, emailed, triggered,
                                   if lastChanged.Some? then lastChanged.value else now)
    {
      id := GetRandString(encodedToken);
      this.subscriber := subscriber;
      this.gracePd := gracePd;
      this.emailed := emailed;
      this.triggered := triggered;
      this.lastChanged := if lastChanged.Some? then lastChanged.value else now;
    }

    function Row(): NodeDownRow
      reads this
    {
      NodeDownRow(subscriber, gracePd, emailed, triggered, lastChanged)
    }
  }

  class BandwithSub {
    const id: seq<byte>
    const subscriber: SubscriberInfo
    const threshold: int
    var emailed: bool

    /** `threshold` defaults to 20, `emailed` to false. */
    constructor (encodedToken: seq<byte>, subscriber: SubscriberInfo, threshold: int := 20,
                 emailed: bool := false)
      ensures id == GetRandString(encodedToken)
      ensures Row() == BandwidthRow(subscriber, threshold, emailed)
    {
      id := GetRandString(encodedToken);
      this.subscriber := subscriber;
      this.threshold := threshold;
      this.emailed := emailed;
    }

    function Row(): BandwidthRow
      reads this
    {
      BandwidthRow(subscriber, threshold, emailed)
    }
  }

  class OutdatedVersionSub {
    const id: seq<byte>
    const subscriber: SubscriberInfo
    const notifyType: string
    var emailed: bool

    /** `notify_type` defaults to "OBSOLETE", `emailed` to false. */
    constructor (encodedToken: seq<byte>, subscriber: SubscriberInfo,
                 notifyType: string := "OBSOLETE", emailed: bool := false)
      ensures id == GetRandString(encodedToken)
      ensures Row() == VersionRow(subscriber, notifyType, emailed)
    {
      id := GetRandString(encodedToken);
      this.subscriber := subscriber;
      this.notifyType := notifyType;
      this.emailed := emailed;
    }

    function Row(): VersionRow
      reads this
    {
      VersionRow(subscriber, notifyType, emailed)
    }
  }

  class DNSFailSub {
    const id: seq<byte>
    const subscriber: SubscriberInfo
    var emailed: bool

    /** No rule-specific state; `emailed` defaults to false. */
    constructor (encodedToken: seq<byte>, subscriber: SubscriberInfo, emailed: bool := false)
      ensures id == GetRandString(encodedToken)
      ensures this.subscriber == subscriber && this.emailed == emailed
    {
      id := GetRandString(encodedToken);
      this.subscriber := subscriber;
      this.emailed := emailed;
    }
  }
}
