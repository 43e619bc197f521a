/** MailService.sendWelcomeEmail (backend/src/mail/mail.service.ts): the
    masking of the account number and the send whose failure is swallowed. */
module MailService {
  const MaskPrefix := "XXXX-XXXX-"
  const WelcomeSubject := "Welcome to the Finance Platform! Your Account is Ready"
  const FrontendLoginUrl := "http://localhost:3000/"

  /** JavaScript's `s.slice(-4)`: the last four characters, or all of `s` when it is shorter. */
  function LastFour(s: string): (r: string)
    ensures |r| == if |s| < 4 then |s| else 4
    ensures r == s[|s| - |r|..]
  {
    if |s| < 4 then s else s[|s| - 4..]
  }

  /** `'XXXX-XXXX-' + accountNumber.slice(-4)`. */
  function MaskAccountNumber(accountNumber: string): (masked: string)
    ensures |masked| >= |MaskPrefix| && masked[..|MaskPrefix|] == MaskPrefix
    ensures |accountNumber| >= 4 ==>
      |masked| == 14 && masked[|MaskPrefix|..] == accountNumber[|accountNumber| - 4..]
    ensures |accountNumber| < 4 ==> masked == MaskPrefix + accountNumber
  {
    MaskPrefix + LastFour(accountNumber)
  }

  /** Account numbers that end in the same four characters are masked alike. */
  lemma MaskDependsOnLastFour(a: string, b: string)
    requires LastFour(a) == LastFour(b)
    ensures MaskAccountNumber(a) == MaskAccountNumber(b)
  {
  }

  predicate Contains(s: string, t: string) {
    exists i, j | 0 <= i <= j <= |s| :: s[i..j] == t
  }

  /** The message handed to the mailer. */
  datatype Mail = Mail(to: string, subject: string, html: string)

  /** What the service writes to the console. */
  datatype LogLine = Info(text: string) | Error(text: string)

  /** The welcome message; it shows the masked account number. */
  function WelcomeMail(userEmail: string, fullName: string, accountNumber: string): (m: Mail)
    ensures m.to == userEmail && m.subject == WelcomeSubject
    ensures Contains(m.html, MaskAccountNumber(accountNumber))
  {
    var masked := MaskAccountNumber(accountNumber);
    var before := "<h1>Welcome, " + fullName + "!</h1>"
      + "<p>You have successfully registered for our Finance Platform.</p>"
      + "<p>Your new account number is: <strong>";
    var after := "</strong></p>"
      + "<p>Please log in to start managing your savings and credit.</p>"
      + "<p><a href=\"" + FrontendLoginUrl + "\">Click here to Log In</a></p>"
      + "<br>"
      + "<p>Thank you!</p>";
    var html := before + masked + after;
    assert html[|before|..|before| + |masked|] == masked;
    Mail(userEmail, WelcomeSubject, html)
  }

  /** `sendWelcomeEmail(userEmail, fullName, accountNumber)`. `delivered` stands
      for the mailer: whether it accepts the message. The method has no error
      result: a failed send is logged, never passed to the caller. */
  method SendWelcomeEmail(userEmail: string, fullName: string, accountNumber: string, delivered: Mail -> bool)
    returns (log: LogLine)
    ensures delivered(WelcomeMail(userEmail, fullName, accountNumber)) ==>
      log == Info("Welcome email successfully sent to " + userEmail)
    ensures !delivered(WelcomeMail(userEmail, fullName, accountNumber)) ==>
      log == Error("Failed to send welcome email to " + userEmail + ":")
  {
    var mail := WelcomeMail(userEmail, fullName, accountNumber);
    if delivered(mail) {
      log := Info("Welcome email successfully sent to " + userEmail);
    } else {
      log := Error("Failed to send welcome email to " + userEmail + ":");
    }
  }
}
