/** The password-reset page (src/pages/ForgotPassword.tsx): a three-step
    machine (email, code, new password) over the page's state fields. The
    user lookup, the two e-mails and the reset call are network calls and
    the reset code is random; each of them is a parameter here. */
module ForgotPassword {
  import opened Wrappers
  import opened Text

  /** The page's steps, in the order they are reached. */
  datatype Step = Email | Code | NewPassword {
    function Rank(): nat {
      match this
      case Email => 0
      case Code => 1
      case NewPassword => 2
    }
  }

  const MsgNoCuenta := "No existe una cuenta con este correo electrónico"
  const MsgEnvio := "Error al enviar el código. Intenta nuevamente."
  const MsgCodigo := "Código incorrecto. Verifica e intenta nuevamente."
  const MsgNoCoinciden := "Las contraseñas no coinciden"
  const MsgCorta := "La contraseña debe tener al menos 8 caracteres"
  const MsgCambio := "Error al cambiar la contraseña. Intenta nuevamente."

  /** The shortest new password accepted. */
  const MinPassword := 8

  /** The reply to the user lookup `/usuarios/?email=`: the request failed,
      or the names of the users found. */
  datatype LookupOutcome = LookupFailed | Users(nombres: seq<string>)

  /** The reset-code e-mail: recipient, the user's name and the code. */
  datatype CodeMail = CodeMail(toEmail: string, userName: string, resetCode: string)

  /** The reply to `/usuarios/reset_password/`: the user's name, or a
      failure with the server's `error` text, if any. */
  datatype ResetOutcome = ResetDone(usuario: string) | ResetFailed(error: Option<string>)

  /** The reset request: the e-mail and the new password. */
  datatype ResetRequest = ResetRequest(email: string, newPassword: string)

  /** `err.response?.data?.error || generic`. */
  function ResetError(error: Option<string>): (r: string)
    ensures r != ""
    ensures error.Some? && error.value != "" ==> r == error.value
    ensures error.None? || error.value == "" ==> r == MsgCambio
  {
    if error.Some? && error.value != "" then error.value else MsgCambio
  }

  /** The six-digit codes `generateCode` can produce. */
  predicate IsResetCode(n: int) {
    100000 <= n <= 999999
  }

  class Page {
    var step: Step
    var email: string
    var code: string
    var generatedCode: string
    var newPassword: string
    var confirmPassword: string
    var error: string
    var success: bool

    /** Past the first step a code has been generated, and success is only
        reached from the last step. */
    predicate Valid()
      reads this
    {
      (step != Email ==> generatedCode != "") && (success ==> step == NewPassword)
    }

    constructor()
      ensures step == Email && !success && error == ""
      ensures email == "" && code == "" && generatedCode == ""
      ensures newPassword == "" && confirmPassword == ""
      ensures Valid()
    {
      step := Email;
      email := "";
      code := "";
      generatedCode := "";
      newPassword := "";
      confirmPassword := "";
      error := "";
      success := false;
    }

    /** Typing into the e-mail, code or password fields. */
    method TypeEmail(text: string)
      modifies this
      ensures email == text && step == old(step) && generatedCode == old(generatedCode)
      ensures code == old(code) && newPassword == old(newPassword) && confirmPassword == old(confirmPassword)
      ensures error == old(error) && success == old(success)
    {
      email := text;
    }

    method TypeCode(text: string)
      modifies this
      ensures code == text && step == old(step) && generatedCode == old(generatedCode)
      ensures email == old(email) && newPassword == old(newPassword) && confirmPassword == old(confirmPassword)
      ensures error == old(error) && success == old(success)
    {
      code := text;
    }

    method TypePasswords(password: string, confirmation: string)
      modifies this
      ensures newPassword == password && confirmPassword == confirmation
      ensures step == old(step) && generatedCode == old(generatedCode) && email == old(email) && code == old(code)
      ensures error == old(error) && success == old(success)
    {
      newPassword := password;
      confirmPassword := confirmation;
    }

    /** `handleSendCode`, from the e-mail form or the code step's resend
        button. With no user found it only shows an error. With a user it
        stores a fresh code and mails it; the step moves to 'code' only when
        the mail is sent, and a failed lookup or mail shows the send error. */
    method SendCode(lookup: LookupOutcome, resetCode: int, mailSent: bool) returns (mail: Option<CodeMail>)
      requires step == Email || step == Code
      requires IsResetCode(resetCode)
      requires Valid()
      modifies this
      ensures lookup.LookupFailed? ==>
                mail.None? && error == MsgEnvio && step == old(step) && generatedCode == old(generatedCode)
      ensures lookup.Users? && lookup.nombres == [] ==>
                mail.None? && error == MsgNoCuenta && step == old(step) && generatedCode == old(generatedCode)
      ensures lookup.Users? && lookup.nombres != [] ==>
                generatedCode == IntToString(resetCode) &&
                mail == Some(CodeMail(old(email), lookup.nombres[0], IntToString(resetCode))) &&
                (mailSent ==> step == Code && error == "") &&
                (!mailSent ==> step == old(step) && error == MsgEnvio)
      ensures email == old(email) && code == old(code) && success == old(success)
      ensures newPassword == old(newPassword) && confirmPassword == old(confirmPassword)
      ensures step.Rank() >= old(step).Rank()
      ensures Valid()
    {
      error := "";
      mail := None;
      match lookup
      case LookupFailed =>
        error := MsgEnvio;
      case Users(nombres) =>
        if nombres == [] {
          error := MsgNoCuenta;
        } else {
          var resetText := IntToString(resetCode);
          generatedCode := resetText;
          mail := Some(CodeMail(email, nombres[0], resetText));
          if mailSent {
            step := Code;
            error := "";
          } else {
            error := MsgEnvio;
          }
        }
    }

    /** `handleVerifyCode`: the step moves to 'newPassword' exactly when the
        typed code equals the generated one, character for character. */
    method VerifyCode()
      requires step == Code
      requires Valid()
      modifies this
      ensures code == old(generatedCode) ==> step == NewPassword && error == ""
      ensures code != old(generatedCode) ==> step == Code && error == MsgCodigo
      ensures generatedCode == old(generatedCode) && email == old(email) && code == old(code)
      ensures newPassword == old(newPassword) && confirmPassword == old(confirmPassword)
      ensures success == old(success)
      ensures Valid()
    {
      error := "";
      if code == generatedCode {
        step := NewPassword;
      } else {
        error := MsgCodigo;
      }
    }

    /** `handleResetPassword`: mismatched passwords, then a short password,
        are refused before any request. A successful reset ends in success
        whether or not the confirmation mail goes out; a failed one shows
        the server's error. The form is only shown before success. */
    method ResetPassword(outcome: ResetOutcome, confirmationSent: bool) returns (request: Option<ResetRequest>)
      requires step == NewPassword && !success
      requires Valid()
      modifies this
      ensures newPassword != confirmPassword ==> request.None? && error == MsgNoCoinciden && !success
      ensures newPassword == confirmPassword && |newPassword| < MinPassword ==>
                request.None? && error == MsgCorta && !success
      ensures newPassword == confirmPassword && |newPassword| >= MinPassword ==>
                request == Some(ResetRequest(email, newPassword)) &&
                (outcome.ResetDone? ==> success && error == "") &&
                (outcome.ResetFailed? ==> !success && error == ResetError(outcome.error))
      ensures step == old(step) && generatedCode == old(generatedCode) && email == old(email)
      ensures code == old(code) && newPassword == old(newPassword) && confirmPassword == old(confirmPassword)
      ensures Valid()
    {
      error := "";
      request := None;
      if newPassword != confirmPassword {
        error := MsgNoCoinciden;
        return;
      }
      if |newPassword| < MinPassword {
        error := MsgCorta;
        return;
      }
      request := Some(ResetRequest(email, newPassword));
      match outcome
      case ResetDone(_) =>
        success := true;
      case ResetFailed(e) =>
        error := ResetError(e);
    }
  }

  /** The whole happy path: a found user, a sent mail, the right code typed
      and matching long passwords end in success, with the reset request
      for the e-mail typed at the start. */
  method HappyPath(p: Page, nombre: string, resetCode: int, password: string, confirmationSent: bool)
    returns (request: Option<ResetRequest>)
    requires p.step == Email && p.Valid() && !p.success
    requires IsResetCode(resetCode) && |password| >= MinPassword
    modifies p
    ensures request == Some(ResetRequest(old(p.email), password))
    ensures p.success && p.step == NewPassword
  {
    var mail := p.SendCode(Users([nombre]), resetCode, true);
    p.TypeCode(IntToString(resetCode));
    p.VerifyCode();
    p.TypePasswords(password, password);
    request := p.ResetPassword(ResetDone(nombre), confirmationSent);
  }

  /** A wrong code never gets past the code step. */
  method WrongCode(p: Page, typed: string)
    requires p.step == Code && p.Valid() && typed != p.generatedCode
    modifies p
    ensures p.step == Code && p.error == MsgCodigo && p.success == old(p.success)
  {
    p.TypeCode(typed);
    p.VerifyCode();
  }
}
