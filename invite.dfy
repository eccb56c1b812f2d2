/** The invitation page (pages/Invite.tsx): a small state machine that checks the
    invitation token from the address, waits for the visitor to sign in, and accepts
    the invitation through a backend procedure. The invitation query and the
    procedure are oracles; the address's token and the sign-in status are inputs. */
module InvitePage {
  import opened Wrappers
  import opened Strings

  datatype InviteState = IDLE | LOADING | NOT_LOGGED | READY | SUCCESS | ERROR

  const TokenMissing: string := "token_missing"
  const InvalidOrExpired: string := "invalid_or_expired_invite"
  const EmailMismatch: string := "email_mismatch"
  const Unknown: string := "unknown"
  const ProcessFailed: string := "process_failed"

  const MismatchText: string := "Este convite foi enviado para outro endereço de e-mail. Por favor, faça login com o e-mail correto."
  const InvalidText: string := "Este convite já foi aceito, expirou ou é inválido."
  const GenericText: string := "Não foi possível processar seu convite no momento. Tente novamente mais tarde."

  /** A pending invitation row, as far as this page uses it. */
  datatype Invitation = Invitation(companyId: string, email: string)

  /** The state a sign-in status leads to once the invitation is known. */
  function SignInState(isAuthenticated: bool): (s: InviteState)
    ensures s == NOT_LOGGED || s == READY
    ensures s == READY <==> isAuthenticated
  {
    if isAuthenticated then READY else NOT_LOGGED
  }

  /** The error screen's text: two known causes have their own explanation, every
      other cause (a missing token, an unexpected failure) the generic one. */
  function ErrorText(errorType: Option<string>): (t: string)
    ensures errorType == Some(EmailMismatch) <==> t == MismatchText
    ensures errorType == Some(InvalidOrExpired) <==> t == InvalidText
    ensures errorType != Some(EmailMismatch) && errorType != Some(InvalidOrExpired) <==> t == GenericText
  {
    if errorType == Some(EmailMismatch) then MismatchText
    else if errorType == Some(InvalidOrExpired) then InvalidText
    else GenericText
  }

  /** The cause recorded for an error the accept procedure reports: a message naming an
      e-mail mismatch wins, then one naming an invalid invitation; any other message is
      rethrown and ends as 'process_failed'. */
  function AcceptErrorType(message: string): (e: string)
    ensures e in {EmailMismatch, InvalidOrExpired, ProcessFailed}
    ensures e == EmailMismatch <==> Contains(message, EmailMismatch)
    ensures e == InvalidOrExpired <==> !Contains(message, EmailMismatch) && Contains(message, InvalidOrExpired)
  {
    if Contains(message, EmailMismatch) then EmailMismatch
    else if Contains(message, InvalidOrExpired) then InvalidOrExpired
    else ProcessFailed
  }

  /** `!t`: no token, or an empty one. */
  predicate Present(t: Option<string>)
  {
    t.Some? && t.value != ""
  }

  class InviteScreen {
    var state: InviteState
    var token: Option<string>
    var invitation: Option<Invitation>
    var errorType: Option<string>
    var isProcessing: bool
    /** How many times the invitation was queried. */
    var lookups: nat

    /** Every way into the error state names its cause. */
    ghost predicate Valid()
      reads this
    {
      state == ERROR ==> errorType.Some?
    }

    constructor()
      ensures Valid()
      ensures state == LOADING && token.None? && invitation.None? && errorType.None?
      ensures !isProcessing && lookups == 0
    {
      state := LOADING;
      token := None;
      invitation := None;
      errorType := None;
      isProcessing := false;
      lookups := 0;
    }

    /** The mount effect: keep the address's token; without one, fail with
        'token_missing' and query nothing; otherwise check the invitation. */
    method Mount(t: Option<string>, query: Outcome<Option<Invitation>>, isAuthenticated: bool)
      requires Valid()
      modifies this
      ensures Valid()
      ensures token == t && isProcessing == old(isProcessing)
      ensures !Present(t) ==> state == ERROR && errorType == Some(TokenMissing)
      ensures !Present(t) ==> lookups == old(lookups) && invitation == old(invitation)
      ensures Present(t) ==> lookups == old(lookups) + 1
    {
      token := t;
      if !Present(t) {
        state := ERROR;
        errorType := Some(TokenMissing);
        return;
      }
      CheckInvite(t.value, query, isAuthenticated);
    }

    /** `checkInvite`: `query` is the lookup of a pending invitation with this token
        (`Returned(None)` when the query reports an error or finds no row, `Threw` when
        it fails outright). A found invitation leads to the sign-in or the accept screen. */
    method CheckInvite(tokenStr: string, query: Outcome<Option<Invitation>>, isAuthenticated: bool)
      requires Valid()
      modifies this
      ensures Valid()
      ensures lookups == old(lookups) + 1 && token == old(token) && isProcessing == old(isProcessing)
      ensures query.Threw? ==> state == ERROR && errorType == Some(Unknown) && invitation == old(invitation)
      ensures query == Returned(None) ==>
        state == ERROR && errorType == Some(InvalidOrExpired) && invitation == old(invitation)
      ensures query.Returned? && query.value.Some? ==>
        state == SignInState(isAuthenticated) && invitation == query.value && errorType == old(errorType)
    {
      state := LOADING;
      lookups := lookups + 1;
      match query {
        case Threw(_) =>
          state := ERROR;
          errorType := Some(Unknown);
        case Returned(found) =>
          if found.None? {
            state := ERROR;
            errorType := Some(InvalidOrExpired);
          } else {
            invitation := found;
            state := SignInState(isAuthenticated);
          }
      }
    }

    /** The sign-in effect: once the invitation is known (any state but loading, success
        and error) the screen follows the sign-in status; the other states are kept. */
    method AuthChanged(isAuthenticated: bool)
      requires Valid()
      modifies this
      ensures Valid()
      ensures old(state) in {LOADING, SUCCESS, ERROR} ==> state == old(state)
      ensures old(state) !in {LOADING, SUCCESS, ERROR} ==> state == SignInState(isAuthenticated)
      ensures token == old(token) && invitation == old(invitation) && errorType == old(errorType)
      ensures isProcessing == old(isProcessing) && lookups == old(lookups)
    {
      if state != LOADING && state != SUCCESS && state != ERROR {
        state := SignInState(isAuthenticated);
      }
    }

    /** `handleAccept`: nothing without a token. Otherwise `rpc` is the procedure's answer:
        no error is success; an error message naming an e-mail mismatch or an invalid
        invitation is reported as such (the mismatch first); any other error, and a
        failure outright, is 'process_failed'. The busy flag ends cleared. */
    method Accept(rpc: Outcome<Option<string>>)
      requires Valid()
      modifies this
      ensures Valid()
      ensures !Present(token) ==> state == old(state) && errorType == old(errorType)
      ensures !Present(token) ==> isProcessing == old(isProcessing)
      ensures Present(token) ==> !isProcessing
      ensures Present(token) && rpc == Returned(None) ==> state == SUCCESS && errorType == old(errorType)
      ensures Present(token) && rpc.Returned? && rpc.value.Some? ==>
        state == ERROR && errorType == Some(AcceptErrorType(rpc.value.value))
      ensures Present(token) && rpc.Threw? ==> state == ERROR && errorType == Some(ProcessFailed)
      ensures token == old(token) && invitation == old(invitation) && lookups == old(lookups)
    {
      if !Present(token) {
        return;
      }
      isProcessing := true;
      match rpc {
        case Threw(_) =>
          state := ERROR;
          errorType := Some(ProcessFailed);
        case Returned(error) =>
          if error.None? {
            state := SUCCESS;
          } else {
            state := ERROR;
            errorType := Some(AcceptErrorType(error.value));
          }
      }
      isProcessing := false;
    }

    /** The error screen's text. */
    function Message(): (t: string)
      reads this
      ensures state == ERROR && errorType == Some(TokenMissing) ==> t == GenericText
    {
      ErrorText(errorType)
    }
  }
}
