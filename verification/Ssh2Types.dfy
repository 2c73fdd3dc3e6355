/** Values shared by the two connect drivers: authentication attempts, the answers of the remote side, and the log of
    what a driver did.
 */
module Ssh2Types {

  datatype Option<+T> = None | Some(value: T)

  /** The kinds of a single authentication attempt. */
  datatype Kind = Agent | Provider | PubkeyFile | PubkeyMemory | Password | KeyboardInteractive

  datatype Attempt = Attempt(kind: Kind, pubKey: string, privKey: string, passphrase: string)

  /** What SSH2Base::getAuthenticatedWith() reports after the attempt succeeded. */
  function AuthenticatedWith(kind: Kind): string {
    match kind
    case Agent => "agent"
    case Password => "password"
    case KeyboardInteractive => "keyboard-interactive"
    case _ => "publickey"
  }

  /** The answer of one libssh2 authentication call; WouldBlock is LIBSSH2_ERROR_EAGAIN. */
  datatype Answer = WouldBlock | Accepted | Rejected

  function Verdict(ok: bool): Answer {
    if ok then Accepted else Rejected
  }

  /** A list entry returned by getClientIdentityCandidates(). */
  datatype Candidate =
    | CandidateNotAHash
    | Candidate(kind: Option<string>, path: Option<string>, optional: bool)

  /** The result of getPrivateKeyMaterial(). */
  datatype Material =
    | MaterialException
    | MaterialNotAHash
    | Material(kind: Option<string>, path: Option<string>, privateText: Option<string>,
               privateData: Option<string>, publicText: Option<string>)

  /** Everything observable a connection does, in order. */
  datatype Event =
    | SessionOpened
    | SessionClosed
    | HostKeyChecked(ok: bool)
    | AccessChecked(attempt: Attempt, ok: bool)
    | AuthCall(attempt: Attempt, answer: Answer)
    | AgentOpened(ok: bool)
    | AgentCall(identity: nat, answer: Answer)
    | CandidatesFetched(ok: bool)
    | CandidateResolved(index: nat, ok: bool)

  type Log = seq<Event>

  /** The remote server, the SSH agent, the identity provider and the sandbox.  Every answer may depend on everything
      that was completed before, so nothing is assumed about them except that the same history gets the same answer.
   */
  datatype Env = Env(
    hostKeyAccepted: Log -> bool,
    authList: Log -> Option<string>,
    access: (Log, Attempt) -> bool,
    accepts: (Log, Attempt) -> bool,
    agentIdentities: Log -> Option<nat>,
    agentAccepts: (Log, nat) -> bool,
    candidates: Log -> Option<seq<Candidate>>,
    material: (Log, nat) -> Material,
    cwd: string,
    statSize: string -> nat,
    files: string -> seq<bv8>)

  predicate OccursAt(needle: string, text: string, i: int) {
    0 <= i <= |text| - |needle| && text[i..i + |needle|] == needle
  }

  /** The strstr() test of the method list the server advertises. */
  predicate IsSubstring(needle: string, text: string) {
    exists i | 0 <= i <= |text| :: OccursAt(needle, text, i)
  }
}
