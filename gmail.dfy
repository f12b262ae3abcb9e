/**
 * `get_gmail_credentials` and `get_verification_code_from_email`.
 * The OAuth flow, the profile lookup and the message listing are foreign
 * calls; each call of the fetch sees one `MailWorld` that says what they
 * returned (or that one of them raised).
 */
module Gmail {
  import opened Wrappers
  import opened CodeExtraction

  /** The default `target_email` of both functions (a placeholder in the source). */
  const DEFAULT_TARGET_EMAIL := "[enter default target address here]"

  datatype Credentials = Credentials(token: string)

  /**
   * What the OAuth flow and `getProfile` produced: either some step raised
   * (`AuthFailed`: token removal, the flow, the API build or the token save),
   * or credentials were obtained and the profile carried this `emailAddress`.
   */
  datatype AuthOutcome = AuthFailed | Authorized(creds: Credentials, profileEmail: Option<string>)

  /** One message of the mailbox, as the Gmail service lists and returns it. */
  datatype Message = Message(id: string, recipient: string, unread: bool, snippet: Option<string>)

  /**
   * The world one fetch sees: the authentication outcome and the mailbox in
   * the order the service lists it, or `None` when a mail API call raised.
   */
  datatype MailWorld = MailWorld(auth: AuthOutcome, mailbox: Option<seq<Message>>)

  /**
   * Credentials are handed out only when the authenticated profile address
   * equals `targetEmail`; a mismatch (or a missing address) raises
   * `ValueError`, which the handler turns into `None`, as does any failure
   * of the flow itself.
   */
  function GetGmailCredentials(targetEmail: string, auth: AuthOutcome): (r: Option<Credentials>)
    ensures r.Some? <==> auth.Authorized? && auth.profileEmail == Some(targetEmail)
    ensures r.Some? ==> r.value == auth.creds
  {
    match auth
    case AuthFailed => None
    case Authorized(creds, profileEmail) =>
      if profileEmail != Some(targetEmail) then None else Some(creds)
  }

  /** The query `to:{target} is:unread` selects this message. */
  predicate Selected(m: Message, target: string) {
    m.recipient == target && m.unread
  }

  /** Index of the first message at or after `from` that the query selects. */
  function FirstSelectedFrom(box: seq<Message>, target: string, from: nat): (r: Option<nat>)
    ensures r.Some? ==> from <= r.value < |box| && Selected(box[r.value], target)
    ensures r.Some? ==> forall j :: from <= j < r.value ==> !Selected(box[j], target)
    ensures r.None? ==> forall j :: from <= j < |box| ==> !Selected(box[j], target)
    decreases |box| - from
  {
    if from >= |box| then None
    else if Selected(box[from], target) then Some(from)
    else FirstSelectedFrom(box, target, from + 1)
  }

  /** `messages[0]` of the listing, if the listing is not empty. */
  function FirstUnread(box: seq<Message>, target: string): Option<Message> {
    match FirstSelectedFrom(box, target, 0)
    case None => None
    case Some(i) => Some(box[i])
  }

  /**
   * One call of `get_verification_code_from_email(target)`: no credentials,
   * a failing mail call or an empty listing give `None`; otherwise the code
   * pattern is applied to the first listed message's snippet (empty when it
   * has none).
   */
  function GetVerificationCodeFromEmail(target: string, w: MailWorld): Option<string> {
    match GetGmailCredentials(target, w.auth)
    case None => None
    case Some(_) =>
      match w.mailbox
      case None => None
      case Some(box) =>
        match FirstUnread(box, target)
        case None => None
        case Some(m) => ExtractCode(m.snippet.GetOr(""))
  }

  /**
   * What one fetch returns: `None` without credentials, on a failing mail
   * call or when no unread message is addressed to the target; otherwise
   * the code pattern applied to the first such message's snippet, which is
   * six digits whenever it is a code.
   */
  lemma FetchCharacterised(target: string, w: MailWorld)
    ensures GetGmailCredentials(target, w.auth).None? ==> GetVerificationCodeFromEmail(target, w).None?
    ensures w.mailbox.None? ==> GetVerificationCodeFromEmail(target, w).None?
    ensures w.mailbox.Some? && (forall j :: 0 <= j < |w.mailbox.value| ==> !Selected(w.mailbox.value[j], target))
            ==> GetVerificationCodeFromEmail(target, w).None?
    ensures GetGmailCredentials(target, w.auth).Some? && w.mailbox.Some? ==>
      forall i :: 0 <= i < |w.mailbox.value| && Selected(w.mailbox.value[i], target)
        && (forall j :: 0 <= j < i ==> !Selected(w.mailbox.value[j], target))
        ==> GetVerificationCodeFromEmail(target, w) == ExtractCode(w.mailbox.value[i].snippet.GetOr(""))
    ensures GetVerificationCodeFromEmail(target, w).Some? ==> IsCode(GetVerificationCodeFromEmail(target, w).value)
    ensures GetVerificationCodeFromEmail(target, w).Some? ==>
      exists i :: 0 <= i < |w.mailbox.value| && Selected(w.mailbox.value[i], target)
        && (forall j :: 0 <= j < i ==> !Selected(w.mailbox.value[j], target))
        && GetVerificationCodeFromEmail(target, w) == ExtractCode(w.mailbox.value[i].snippet.GetOr(""))
  {
    if GetGmailCredentials(target, w.auth).Some? && w.mailbox.Some? {
      var box := w.mailbox.value;
      match FirstSelectedFrom(box, target, 0)
      case None =>
      case Some(i) =>
        forall i' | 0 <= i' < |box| && Selected(box[i'], target) && (forall j :: 0 <= j < i' ==> !Selected(box[j], target))
          ensures i' == i
        {
        }
    }
  }

  /**
   * With the identity gate closed, the mailbox is never consulted: the
   * result is `None` whatever the mailbox holds.
   */
  lemma ClosedGateIgnoresMailbox(target: string, auth: AuthOutcome, box1: Option<seq<Message>>, box2: Option<seq<Message>>)
    requires !(auth.Authorized? && auth.profileEmail == Some(target))
    ensures GetVerificationCodeFromEmail(target, MailWorld(auth, box1))
         == GetVerificationCodeFromEmail(target, MailWorld(auth, box2))
         == None
  {
  }

  /**
   * Messages to other recipients and read messages never contribute a code:
   * inserting one anywhere in the listing leaves the result unchanged.
   */
  lemma {:induction false} OnlySelectedMessagesMatter(target: string, auth: AuthOutcome, box: seq<Message>, m: Message, p: nat)
    requires p <= |box| && !Selected(m, target)
    ensures GetVerificationCodeFromEmail(target, MailWorld(auth, Some(box[..p] + [m] + box[p..])))
         == GetVerificationCodeFromEmail(target, MailWorld(auth, Some(box)))
  {
    var big := box[..p] + [m] + box[p..];
    FirstSelectedBeforeInsert(box, target, m, p, 0);
    match FirstSelectedFrom(box, target, 0)
    case None =>
    case Some(i) =>
      if i < p {
        assert big[i] == box[i];
      } else {
        assert big[i + 1] == box[i];
      }
  }

  /** Where the first selected index of `box` lands once `m` is inserted at `p`. */
  function ShiftedPast(r: Option<nat>, p: nat): Option<nat> {
    match r
    case None => None
    case Some(i) => Some(if i < p then i else i + 1)
  }

  lemma {:induction false} FirstSelectedBeforeInsert(box: seq<Message>, target: string, m: Message, p: nat, from: nat)
    requires from <= p <= |box| && !Selected(m, target)
    ensures FirstSelectedFrom(box[..p] + [m] + box[p..], target, from)
         == ShiftedPast(FirstSelectedFrom(box, target, from), p)
    decreases p - from
  {
    var big := box[..p] + [m] + box[p..];
    if from == p {
      assert big[p] == m;
      FirstSelectedAfterInsert(box, target, m, p, p);
    } else {
      assert big[from] == box[from];
      if !Selected(box[from], target) {
        FirstSelectedBeforeInsert(box, target, m, p, from + 1);
      }
    }
  }

  lemma {:induction false} FirstSelectedAfterInsert(box: seq<Message>, target: string, m: Message, p: nat, from: nat)
    requires p <= from && p <= |box|
    ensures FirstSelectedFrom(box[..p] + [m] + box[p..], target, from + 1)
         == ShiftedPast(FirstSelectedFrom(box, target, from), p)
    decreases |box| - from
  {
    var big := box[..p] + [m] + box[p..];
    if from < |box| {
      assert big[from + 1] == box[from];
      if !Selected(box[from], target) {
        FirstSelectedAfterInsert(box, target, m, p, from + 1);
      }
    }
  }
}
