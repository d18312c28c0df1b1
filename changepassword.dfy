/**
 * The change-password form: the one-time-password request with its 30-second cool-down
 * counted down once a second, the form's checks, the request it sends, the notification
 * for each outcome, and the redirect to the login page after a successful change.
 */
module ChangePassword {
  import opened Wrappers

  /** The length of the cool-down after an OTP was sent, in seconds. */
  const CooldownSeconds := 30

  /** One tick of the interval: the state updater `prev <= 1 ? 0 : prev - 1`. */
  function NextCooldown(prev: int): int {
    if prev <= 1 then 0 else prev - 1
  }

  /** The interval stops itself on the tick that sees a value of at most 1. */
  predicate StopsInterval(prev: int) {
    prev <= 1
  }

  /** The cool-down after `k` ticks. */
  function AfterTicks(c: int, k: nat): int
    decreases k
  {
    if k == 0 then c else AfterTicks(NextCooldown(c), k - 1)
  }

  /** From a non-negative value, `k` ticks give `max(c - k, 0)`: the count falls by one a
      second and never goes below zero. */
  lemma {:induction false} AfterTicksSpec(c: int, k: nat)
    requires c >= 0
    ensures AfterTicks(c, k) == if c - k > 0 then c - k else 0
    decreases k
  {
    if k > 0 {
      AfterTicksSpec(NextCooldown(c), k - 1);
    }
  }

  /** Thirty ticks after a successful send the button is enabled again, and not before. */
  lemma CooldownLastsThirtyTicks(k: nat)
    ensures AfterTicks(CooldownSeconds, k) > 0 <==> k < CooldownSeconds
  {
    AfterTicksSpec(CooldownSeconds, k);
  }

  /** The decimal digits of `n`, as a template literal prints a non-negative integer. */
  function NatToDecimal(n: nat): (r: string)
    ensures |r| >= 1
    ensures forall i :: 0 <= i < |r| ==> '0' <= r[i] <= '9'
    decreases n
  {
    if n < 10 then [(48 + n) as char] else NatToDecimal(n / 10) + [(48 + n % 10) as char]
  }

  predicate IsDigits(s: string) {
    forall i :: 0 <= i < |s| ==> '0' <= s[i] <= '9'
  }

  /** The number a string of decimal digits denotes. */
  function DecimalValue(s: string): nat
    requires IsDigits(s)
    decreases |s|
  {
    if s == [] then 0 else DecimalValue(s[..|s| - 1]) * 10 + (s[|s| - 1] as int - 48)
  }

  /** Reading the printed digits back gives the number; there is no leading zero. */
  lemma {:induction false} DecimalRoundTrip(n: nat)
    ensures DecimalValue(NatToDecimal(n)) == n
    ensures n > 0 ==> NatToDecimal(n)[0] != '0'
    decreases n
  {
    if n >= 10 {
      DecimalRoundTrip(n / 10);
      var r := NatToDecimal(n);
      assert r[..|r| - 1] == NatToDecimal(n / 10);
    }
  }

  /** The send button is disabled while the cool-down runs. */
  predicate SendDisabled(otpCooldown: int) {
    otpCooldown > 0
  }

  /** The send button's text. */
  function SendLabel(otpCooldown: int): string {
    if otpCooldown > 0 then "Send (" + NatToDecimal(otpCooldown) + "s)" else "Send OTP"
  }

  /** While disabled the button shows the remaining seconds, readable back from its text;
      otherwise it reads 'Send OTP'. */
  lemma SendLabelShowsSeconds(otpCooldown: int)
    ensures !SendDisabled(otpCooldown) ==> SendLabel(otpCooldown) == "Send OTP"
    ensures SendDisabled(otpCooldown) ==>
      var l := SendLabel(otpCooldown);
      |l| > 8 && l[..6] == "Send (" && l[|l| - 2..] == "s)"
      && IsDigits(l[6..|l| - 2]) && DecimalValue(l[6..|l| - 2]) == otpCooldown
  {
    if otpCooldown > 0 {
      var d := NatToDecimal(otpCooldown);
      var l := SendLabel(otpCooldown);
      assert l == "Send (" + d + "s)";
      assert l[6..|l| - 2] == d;
      DecimalRoundTrip(otpCooldown);
    }
  }

  /** How `sendOtp` settled: a result with an optional status, or a thrown error. */
  datatype SendReply = SendResult(status: Option<string>) | SendThrew

  /** The values the form holds; antd keeps a field absent until it is filled. */
  datatype PasswordForm = PasswordForm(
    currentPassword: Option<string>, newPassword: Option<string>,
    confirmPassword: Option<string>, otp: Option<string>)

  /** A `required` rule: the field is present and not ''. */
  predicate Filled(v: Option<string>) {
    v.Some? && v.value != []
  }

  /** The confirm field's own validator: empty, or equal to the new password. */
  predicate ConfirmMatches(values: PasswordForm) {
    !Filled(values.confirmPassword) || values.newPassword == values.confirmPassword
  }

  /** The form calls `onFinish` only when every rule passes. */
  predicate FormAccepts(values: PasswordForm) {
    Filled(values.currentPassword) && Filled(values.newPassword)
    && Filled(values.confirmPassword) && Filled(values.otp) && ConfirmMatches(values)
  }

  /** The body of `changePassword`: the form's values without the confirmation, with the
      signed-in user's email. */
  datatype ChangePasswordParams = ChangePasswordParams(
    email: Option<string>, currentPassword: Option<string>, newPassword: Option<string>, otp: Option<string>)

  function PayloadOf(values: PasswordForm, email: Option<string>): ChangePasswordParams {
    ChangePasswordParams(email, values.currentPassword, values.newPassword, values.otp)
  }

  /** How `changePassword` settled. */
  datatype ChangeReply = ChangeResult(status: Option<string>) | ChangeThrew

  /** Where `handleSubmit(values)` ends. */
  datatype SubmitOutcome =
    | Mismatch(toast: Toast)
    | Sent(payload: ChangePasswordParams, toast: Toast, logout: bool)

  function ChangeToast(reply: ChangeReply): Toast {
    match reply
    case ChangeResult(Some("OK")) => Success("Password changed successfully!")
    case ChangeResult(status) => Error(OptOrDefault(status, "Change Password failed!"))
    case ChangeThrew => Error("Change Password failed!")
  }

  function Submit(values: PasswordForm, email: Option<string>, reply: ChangeReply): SubmitOutcome {
    if values.newPassword != values.confirmPassword then
      Mismatch(Error("New password and confirm password do not match."))
    else Sent(PayloadOf(values, email), ChangeToast(reply), reply == ChangeResult(Some("OK")))
  }

  /** No request is sent when the two new passwords differ; otherwise the body carries the
      user's email and the other three fields unchanged, and a logout is scheduled exactly
      when the server answers 'OK'. A status other than 'OK' is itself shown as the error. */
  lemma SubmitSpec(values: PasswordForm, email: Option<string>, reply: ChangeReply)
    ensures var out := Submit(values, email, reply);
      (out.Mismatch? <==> values.newPassword != values.confirmPassword)
      && (out.Sent? ==>
            (out.payload.email == email && out.payload.currentPassword == values.currentPassword
             && out.payload.newPassword == values.newPassword && out.payload.otp == values.otp
             && (out.logout <==> out.toast.Success?)))
    ensures reply.ChangeResult? && reply.status.Some? && reply.status.value != "OK" && reply.status.value != [] ==>
      ChangeToast(reply) == Error(reply.status.value)
  {
  }

  /** The form's own rules already reject differing passwords, so the check in
      `handleSubmit` is never reached from the form. */
  lemma FormRulesPreventMismatch(values: PasswordForm, email: Option<string>, reply: ChangeReply)
    requires FormAccepts(values)
    ensures Submit(values, email, reply).Sent?
  {
  }

  /** The alert shown from `changePasswordState`. */
  datatype StatusAlert = NoAlert | ErrorAlert | SuccessAlert

  function AlertFor(state: Option<string>): StatusAlert {
    if state == Some("ERROR") then ErrorAlert
    else if state == Some("OK") then SuccessAlert
    else NoAlert
  }

  /** `logoutAndRedirect`'s test: leave for the login page unless already there or a
      `redirect` parameter is present and non-empty. */
  predicate ShouldRedirect(pathname: string, redirect: Option<string>) {
    pathname != "/user/login" && (redirect.None? || redirect.value == [])
  }

  /** The login location with the page to come back to in its `redirect` parameter. */
  datatype Location = Location(pathname: string, redirectParam: string)

  /** `logoutAndRedirect`'s navigation from the current `pathname` and `search`, given the
      current `redirect` parameter: the login location when the test passes, else none.
      The login page itself never passes the test, so the redirect cannot loop. */
  function LogoutRedirect(pathname: string, search: string, redirect: Option<string>): (r: Option<Location>)
    ensures r.Some? <==> ShouldRedirect(pathname, redirect)
    ensures r.Some? ==> r.value.pathname == "/user/login" && forall r2 :: !ShouldRedirect(r.value.pathname, r2)
    ensures r.Some? ==> |r.value.redirectParam| >= |pathname| && r.value.redirectParam[..|pathname|] == pathname
  {
    if ShouldRedirect(pathname, redirect) then Some(Location("/user/login", pathname + search)) else None
  }

  /** There is never a redirect from the login page itself. */
  lemma NoRedirectFromLogin(search: string, redirect: Option<string>)
    ensures LogoutRedirect("/user/login", search, redirect) == None
  {
  }

  /** The form's state. */
  class ChangePasswordPage {
    var otpCooldown: int
    var intervalActive: bool
    var otpLoading: bool
    var changePasswordState: Option<Option<string>>
    var logoutScheduled: bool

    /** The cool-down stays within 0..30 and the interval runs exactly while it is
        positive. */
    ghost predicate Valid()
      reads this
    {
      0 <= otpCooldown <= CooldownSeconds && (intervalActive <==> otpCooldown > 0)
    }

    constructor ()
      ensures Valid()
      ensures otpCooldown == 0 && !intervalActive && !otpLoading
      ensures changePasswordState == None && !logoutScheduled
    {
      otpCooldown, intervalActive, otpLoading := 0, false, false;
      changePasswordState, logoutScheduled := None, false;
    }

    /** A click on the send button, with the user's email and the outcome of `sendOtp`.
        A disabled button ignores the click. Without an email nothing is sent. An 'OK'
        starts the cool-down and its interval; anything else reports a failure. */
    method ClickSendOtp(email: Option<string>, reply: SendReply) returns (toast: Option<Toast>, sent: bool)
      requires Valid()
      modifies this`otpCooldown, this`intervalActive, this`otpLoading
      ensures Valid()
      ensures !otpLoading
      ensures SendDisabled(old(otpCooldown)) ==>
        (toast == None && !sent && otpCooldown == old(otpCooldown) && intervalActive == old(intervalActive))
      ensures !SendDisabled(old(otpCooldown)) && !Filled(email) ==>
        (toast == Some(Warning("Email not found.")) && !sent && otpCooldown == old(otpCooldown))
      ensures !SendDisabled(old(otpCooldown)) && Filled(email) ==> sent
      ensures sent && reply == SendResult(Some("OK")) ==>
        (toast == Some(Success("OTP sent successfully!")) && otpCooldown == CooldownSeconds && intervalActive)
      ensures sent && reply != SendResult(Some("OK")) ==>
        (toast == Some(Error("Failed to send OTP.")) && otpCooldown == old(otpCooldown))
    {
      otpLoading := false;
      if SendDisabled(otpCooldown) {
        return None, false;
      }
      if !Filled(email) {
        return Some(Warning("Email not found.")), false;
      }
      sent := true;
      otpLoading := true;
      if reply == SendResult(Some("OK")) {
        toast := Some(Success("OTP sent successfully!"));
        otpCooldown := CooldownSeconds;
        intervalActive := true;
      } else {
        toast := Some(Error("Failed to send OTP."));
      }
      otpLoading := false;
    }

    /** One second passes: a running interval applies one tick and stops itself on the
        tick that reaches zero. */
    method Tick()
      requires Valid()
      modifies this`otpCooldown, this`intervalActive
      ensures Valid()
      ensures old(intervalActive) ==>
        (otpCooldown == NextCooldown(old(otpCooldown)) && intervalActive == !StopsInterval(old(otpCooldown)))
      ensures !old(intervalActive) ==> otpCooldown == old(otpCooldown) && !intervalActive
    {
      if intervalActive {
        if StopsInterval(otpCooldown) {
          intervalActive := false;
        }
        otpCooldown := NextCooldown(otpCooldown);
      }
    }

    /** `onFinish(values)`, with the outcome of `changePassword` as an input. A response
        (but not a thrown error) is stored as the page's state; an 'OK' schedules the
        logout. */
    method HandleSubmit(values: PasswordForm, email: Option<string>, reply: ChangeReply) returns (out: SubmitOutcome)
      modifies this`changePasswordState, this`logoutScheduled
      ensures out == Submit(values, email, reply)
      ensures out.Sent? && reply.ChangeResult? ==> changePasswordState == Some(reply.status)
      ensures !(out.Sent? && reply.ChangeResult?) ==> changePasswordState == old(changePasswordState)
      ensures logoutScheduled == (old(logoutScheduled) || (out.Sent? && out.logout))
    {
      out := Submit(values, email, reply);
      if out.Sent? && reply.ChangeResult? {
        changePasswordState := Some(reply.status);
      }
      if out.Sent? && out.logout {
        logoutScheduled := true;
      }
    }

    /** The alert above the form. */
    function Alert(): (a: StatusAlert)
      reads this
      ensures a == SuccessAlert <==> changePasswordState == Some(Some("OK"))
      ensures a == ErrorAlert <==> changePasswordState == Some(Some("ERROR"))
    {
      if changePasswordState.Some? then AlertFor(changePasswordState.value) else NoAlert
    }
  }

  /** A run of the page from a successful send: after `k` ticks the state the class
      reaches is the one `AfterTicks` gives, so the button is disabled for exactly 30
      ticks. */
  method CountDown(page: ChangePasswordPage, k: nat)
    requires page.Valid() && page.otpCooldown == CooldownSeconds
    modifies page
    ensures page.Valid()
    ensures page.otpCooldown == AfterTicks(CooldownSeconds, k)
    ensures SendDisabled(page.otpCooldown) <==> k < CooldownSeconds
  {
    var i := 0;
    while i < k
      invariant 0 <= i <= k
      invariant page.Valid()
      invariant page.otpCooldown == AfterTicks(CooldownSeconds, i)
    {
      AfterTicksSpec(CooldownSeconds, i);
      AfterTicksSpec(CooldownSeconds, i + 1);
      page.Tick();
      i := i + 1;
    }
    CooldownLastsThirtyTicks(k);
  }
}
