/** The two collaborators the updater calls but does not contain: the relay-status source
    (`CtlUtil`), given as one snapshot of answers per pass, and the notification builders
    (`emails.*_tuple`), whose results are records of the arguments they were given. */
module Collaborators {

  /** One entry of `get_finger_name_list()`. */
  datatype Reported = Reported(fingerprint: string, name: string)

  /** The answers of the relay-status source during one pass, as functions of the fingerprint. */
  datatype RelayStatus = RelayStatus(
    fingerNames: seq<Reported>,
    upOrHibernating: string -> bool,
    isExit: string -> bool,
    isStable: string -> bool,
    email: string -> string,
    bandwidth: string -> int,
    versionType: string -> string)

  /** A composed notification, one alternative per builder, holding what the builder was given. */
  datatype Notice =
    | NodeDownNotice(recipient: string, fingerprint: string, name: string, gracePd: int,
                     unsubsAuth: string, prefAuth: string)
    | BandwidthNotice(recipient: string, fingerprint: string, name: string, bandwidth: int,
                      threshold: int, unsubsAuth: string, prefAuth: string)
    | VersionNotice(recipient: string, fingerprint: string, name: string, versionType: string,
                    unsubsAuth: string, prefAuth: string)
    | WelcomeNotice(recipient: string, fingerprint: string, name: string, isExit: bool)

  /** Appending to a notice list that already extends `emailList` extends it by both parts. */
  lemma Appended(emailList: seq<Notice>, earlier: seq<Notice>, later: seq<Notice>)
    ensures emailList + earlier + later == emailList + (earlier + later)
  {
  }
}
