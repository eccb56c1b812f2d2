/** The sign-in page (pages/Login.tsx): four modes (sign in, sign up, password
    recovery, waiting for the confirmation e-mail), the sign-up checks, the company
    lookup by CNPJ that fills the sign-up form, and the prefill from an invitation
    link. The authentication calls and the CNPJ registry are oracles; the address's
    parameters are inputs. */
module LoginPage {
  import opened Wrappers
  import opened Strings
  import Auth

  datatype AuthMode = LOGIN | SIGNUP | FORGOT_PASSWORD | WAITING_CONFIRMATION
  datatype DocumentType = CPF | CNPJ

  datatype SignupData = SignupData(name: string, email: string, phone: string, document: string,
                                   companyName: string, password: string, confirmPassword: string)

  const EmptySignup: SignupData := SignupData("", "", "", "", "", "", "")
  const ShortPassword: string := "A senha deve ter pelo menos 6 caracteres."
  const PasswordsDiffer: string := "As senhas não coincidem."
  const SignupDone: string := "Instância configurada com sucesso! Redirecionando..."
  const SignupFailed: string := "Erro ao criar conta."
  const LoginFailed: string := "Erro ao realizar login. Verifique suas credenciais."
  const CnpjNotFound: string := "CNPJ não encontrado."
  const InvitedCompany: string := "Equipe Nexero"

  /** The checks `handleSignupSubmit` makes before calling the backend: a password of at
      least six characters, repeated exactly. The length check comes first. */
  function SignupError(d: SignupData): (e: Option<string>)
    ensures e.None? <==> |d.password| >= 6 && d.password == d.confirmPassword
    ensures |d.password| < 6 ==> e == Some(ShortPassword)
    ensures |d.password| >= 6 && d.password != d.confirmPassword ==> e == Some(PasswordsDiffer)
  {
    if |d.password| < 6 then Some(ShortPassword)
    else if d.password != d.confirmPassword then Some(PasswordsDiffer)
    else None
  }

  /** The inline mismatch warning, which also disables the submit button. Whenever it
      shows, the submit checks would refuse the form too; the converse fails only for a
      short password or a confirmation not yet typed. */
  predicate ShowConfirmError(d: SignupData): (b: bool)
    ensures b ==> SignupError(d).Some?
    ensures SignupError(d).Some? && !b ==> |d.password| < 6 || d.confirmPassword == ""
  {
    |d.confirmPassword| > 0 && d.password != d.confirmPassword
  }

  /** The CNPJ search button shows for a company document with exactly 14 digits once
      everything else is stripped. */
  predicate IsCnpjReady(t: DocumentType, document: string)
  {
    t == CNPJ && |DigitsOnly(document)| == 14
  }

  /** Punctuation does not matter: a formatted number is ready exactly when its bare
      digits are. */
  lemma CnpjReadyIgnoresPunctuation(t: DocumentType, document: string)
    ensures IsCnpjReady(t, document) <==> IsCnpjReady(t, DigitsOnly(document))
  {
    DigitsOnlyOfDigits(DigitsOnly(document));
  }

  /** What the CNPJ registry answers, as far as the form uses it. */
  datatype CnpjData = CnpjData(razaoSocial: Option<string>, nomeFantasia: Option<string>,
                               phone: Option<string>, email: Option<string>)

  /** `(${p.substring(0,2)}) ${p.substring(2)}`: the area code in brackets, then the rest. */
  function FormatPhone(p: string): (r: string)
    ensures |r| == |p| + 3
    ensures r[0] == '(' && r[1..|Take(p, 2)| + 1] == Take(p, 2)
    ensures r[|Take(p, 2)| + 3..] == Drop(p, 2)
  {
    "(" + Take(p, 2) + ") " + Drop(p, 2)
  }

  /** `lookupCnpj`'s update: the legal name, else the trade name, else nothing; the
      phone and e-mail only when the registry has them. Nothing else changes. */
  function ApplyCnpj(d: SignupData, data: CnpjData): (r: SignupData)
    ensures r.companyName == OrDefault(data.razaoSocial, OrDefault(data.nomeFantasia, ""))
    ensures r.phone == if data.phone.Some? && data.phone.value != "" then FormatPhone(data.phone.value) else d.phone
    ensures r.email == OrDefault(data.email, d.email)
    ensures r.(companyName := d.companyName, phone := d.phone, email := d.email) == d
  {
    d.(companyName := OrDefault(data.razaoSocial, OrDefault(data.nomeFantasia, "")),
       phone := if data.phone.Some? && data.phone.value != "" then FormatPhone(data.phone.value) else d.phone,
       email := OrDefault(data.email, d.email))
  }

  class LoginScreen {
    var mode: AuthMode
    var isLoading: bool
    var isSearchingCnpj: bool
    var isRedirecting: bool
    var successMessage: string
    var error: string
    var documentType: DocumentType
    var email: string
    var signup: SignupData

    constructor()
      ensures mode == LOGIN && !isLoading && !isSearchingCnpj && !isRedirecting
      ensures successMessage == "" && error == "" && documentType == CNPJ && email == "" && signup == EmptySignup
    {
      mode := LOGIN;
      isLoading := false;
      isSearchingCnpj := false;
      isRedirecting := false;
      successMessage := "";
      error := "";
      documentType := CNPJ;
      email := "";
      signup := EmptySignup;
    }

    /** The address effect: `mode=SIGNUP` opens the sign-up form, prefilled for an invited
        e-mail with that e-mail, the invited name and a placeholder company; a signed-in
        visitor is redirected (the delayed navigation itself is not modelled). */
    method Prefill(forcedMode: Option<string>, invitedEmail: Option<string>, invitedName: Option<string>,
                   isAuthenticated: bool)
      modifies this
      ensures forcedMode == Some("SIGNUP") ==> mode == SIGNUP
      ensures forcedMode != Some("SIGNUP") ==> mode == old(mode)
      ensures forcedMode == Some("SIGNUP") && invitedEmail.Some? && invitedEmail.value != "" ==>
        signup == old(signup).(email := invitedEmail.value, name := OrDefault(invitedName, ""),
                               companyName := InvitedCompany)
      ensures !(forcedMode == Some("SIGNUP") && invitedEmail.Some? && invitedEmail.value != "") ==>
        signup == old(signup)
      ensures isRedirecting == (old(isRedirecting) || isAuthenticated)
      ensures isLoading == old(isLoading) && error == old(error) && successMessage == old(successMessage)
      ensures email == old(email) && documentType == old(documentType) && isSearchingCnpj == old(isSearchingCnpj)
    {
      if forcedMode == Some("SIGNUP") {
        mode := SIGNUP;
        if invitedEmail.Some? && invitedEmail.value != "" {
          signup := signup.(email := invitedEmail.value, name := OrDefault(invitedName, ""),
                            companyName := InvitedCompany);
        }
      }
      if isAuthenticated {
        isRedirecting := true;
      }
    }

    /** `resetUIStates` */
    method ResetUIStates()
      modifies this
      ensures !isLoading && error == "" && successMessage == ""
      ensures mode == old(mode) && signup == old(signup) && email == old(email)
      ensures documentType == old(documentType) && isSearchingCnpj == old(isSearchingCnpj)
      ensures isRedirecting == old(isRedirecting)
    {
      isLoading := false;
      error := "";
      successMessage := "";
    }

    /** The back button: sign-in mode with the messages cleared. */
    method BackToLogin()
      modifies this
      ensures mode == LOGIN && !isLoading && error == "" && successMessage == ""
      ensures signup == old(signup) && email == old(email) && documentType == old(documentType)
      ensures isSearchingCnpj == old(isSearchingCnpj) && isRedirecting == old(isRedirecting)
    {
      mode := LOGIN;
      ResetUIStates();
    }

    /** The "Esqueceu?" link of the sign-in form: the password-reset form, nothing else
        changes. */
    method ForgotPassword()
      modifies this
      ensures mode == FORGOT_PASSWORD
      ensures isLoading == old(isLoading) && error == old(error) && successMessage == old(successMessage)
      ensures signup == old(signup) && email == old(email) && documentType == old(documentType)
      ensures isSearchingCnpj == old(isSearchingCnpj) && isRedirecting == old(isRedirecting)
    {
      mode := FORGOT_PASSWORD;
    }

    /** The "Criar Nova Conta" button of the sign-in form: the sign-up form, with whatever
        it already held; nothing else changes. */
    method OpenSignup()
      modifies this
      ensures mode == SIGNUP
      ensures isLoading == old(isLoading) && error == old(error) && successMessage == old(successMessage)
      ensures signup == old(signup) && email == old(email) && documentType == old(documentType)
      ensures isSearchingCnpj == old(isSearchingCnpj) && isRedirecting == old(isRedirecting)
    {
      mode := SIGNUP;
    }

    /** `handleLoginSubmit`: on failure the error's message (or a fixed text) shows and
        loading ends; on success loading stays on until the session takes over. */
    method SubmitLogin(login: Outcome<()>)
      modifies this
      ensures login.Returned? ==> isLoading && error == ""
      ensures login.Threw? ==> !isLoading && error == OrDefault(Some(login.message), LoginFailed)
      ensures mode == old(mode) && signup == old(signup) && email == old(email)
      ensures successMessage == old(successMessage) && documentType == old(documentType)
    {
      isLoading := true;
      error := "";
      if login.Threw? {
        error := OrDefault(Some(login.message), LoginFailed);
        isLoading := false;
      }
    }

    /** `handleSignupSubmit`: a form the checks refuse shows why and never reaches the
        backend. Otherwise the auth service's answer goes through `Auth.SignUp`: a user
        without a session means the e-mail still needs confirming, and the page waits
        for it; any other answer reports success; a thrown error is shown. */
    method SubmitSignup(answer: Outcome<Auth.SignUpResponse>) returns (called: bool)
      modifies this
      ensures called <==> SignupError(old(signup)).None?
      ensures !called ==> error == SignupError(old(signup)).value && mode == old(mode)
      ensures !called ==> isLoading == old(isLoading) && successMessage == old(successMessage)
      ensures called ==> !isLoading
      ensures called ==>
        (mode == WAITING_CONFIRMATION <==>
          old(mode) == WAITING_CONFIRMATION || (answer.Returned? && answer.value.hasUser && !answer.value.hasSession))
      ensures called && answer.Returned? ==> error == ""
      ensures called && answer.Returned? && !(answer.value.hasUser && !answer.value.hasSession) ==>
        mode == old(mode) && successMessage == SignupDone
      ensures called && answer.Returned? && answer.value.hasUser && !answer.value.hasSession ==>
        successMessage == old(successMessage)
      ensures called && answer.Threw? ==>
        mode == old(mode) && successMessage == old(successMessage) && error == OrDefault(Some(answer.message), SignupFailed)
      ensures signup == old(signup) && email == old(email) && documentType == old(documentType)
    {
      var check := SignupError(signup);
      if check.Some? {
        error := check.value;
        return false;
      }
      called := true;
      isLoading := true;
      error := "";
      match Auth.SignUp(answer) {
        case Returned(needsConfirmation) =>
          isLoading := false;
          if needsConfirmation {
            mode := WAITING_CONFIRMATION;
          } else {
            successMessage := SignupDone;
          }
        case Threw(message) =>
          error := OrDefault(Some(message), SignupFailed);
          isLoading := false;
      }
    }

    /** `lookupCnpj`: the registry is asked for the bare digits of the document; its
        answer fills the form, and a failure shows that the CNPJ was not found. */
    method LookupCnpj(fetched: Outcome<CnpjData>) returns (queried: string)
      modifies this
      ensures queried == DigitsOnly(old(signup).document)
      ensures !isSearchingCnpj
      ensures fetched.Returned? ==> signup == ApplyCnpj(old(signup), fetched.value) && error == ""
      ensures fetched.Threw? ==> signup == old(signup) && error == CnpjNotFound
      ensures mode == old(mode) && isLoading == old(isLoading) && email == old(email)
      ensures documentType == old(documentType) && successMessage == old(successMessage)
    {
      queried := DigitsOnly(signup.document);
      isSearchingCnpj := true;
      error := "";
      match fetched {
        case Returned(data) =>
          signup := ApplyCnpj(signup, data);
        case Threw(_) =>
          error := CnpjNotFound;
      }
      isSearchingCnpj := false;
    }

    /** "I have confirmed my e-mail": back to sign-in with the sign-up e-mail filled in. */
    method ConfirmedEmail()
      modifies this
      ensures mode == LOGIN && email == old(signup).email
      ensures signup == old(signup) && error == old(error) && isLoading == old(isLoading)
      ensures successMessage == old(successMessage) && documentType == old(documentType)
    {
      email := signup.email;
      mode := LOGIN;
    }
  }
}
