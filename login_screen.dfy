/** The login screen's state and handlers (src/screens/LoginScreen.js):
    the national-ID field, the password, the `loading` flag that disables
    the button and the success modal. Navigation, the alert dialog and the
    three-second timer are not modelled. */
module Login {
  import opened Text
  import opened TcKimlik

  const DemoNationalId := "48610685828"
  const DemoPassword := "123456"

  /** `disabled={loading || tcKimlik.length !== 11 || !password}`, negated. */
  predicate LoginEnabled(loading: bool, tcKimlik: string, password: string) {
    !loading && |tcKimlik| == MaxLength && password != ""
  }

  /** The hard-coded pair is one the field can hold and the button accepts. */
  lemma DemoPairPassesGuard()
    ensures WellFormed(DemoNationalId) && LoginEnabled(false, DemoNationalId, DemoPassword)
  {
  }

  class LoginScreen {
    var tcKimlik: string
    var password: string
    var loading: bool
    var showSuccessModal: bool

    predicate Valid()
      reads this
    {
      WellFormed(tcKimlik)
    }

    predicate Enabled()
      reads this
    {
      LoginEnabled(loading, tcKimlik, password)
    }

    constructor ()
      ensures Valid()
      ensures tcKimlik == "" && password == "" && !loading && !showSuccessModal
    {
      tcKimlik, password := "", "";
      loading, showSuccessModal := false, false;
    }

    /** `handleTcKimlikChange(text)` */
    method HandleTcKimlikChange(text: string)
      requires Valid()
      modifies this
      ensures Valid()
      ensures tcKimlik == AfterInput(old(tcKimlik), text)
      ensures password == old(password) && loading == old(loading) && showSuccessModal == old(showSuccessModal)
    {
      var accepted := Accepted(text);
      if accepted.Some? {
        tcKimlik := accepted.value;
      }
    }

    /** `onChangeText={setPassword}` */
    method SetPassword(text: string)
      requires Valid()
      modifies this
      ensures Valid()
      ensures password == text
      ensures tcKimlik == old(tcKimlik) && loading == old(loading) && showSuccessModal == old(showSuccessModal)
    {
      password := text;
    }

    /** `handleLogin()`: the demo pair starts loading and opens the success
        modal; any other pair raises an alert and changes nothing. */
    method HandleLogin() returns (alertShown: bool)
      requires Valid()
      modifies this
      ensures Valid()
      ensures var matched := old(tcKimlik) == DemoNationalId && old(password) == DemoPassword;
        && alertShown == !matched
        && (matched ==> loading && showSuccessModal)
        && (!matched ==> loading == old(loading) && showSuccessModal == old(showSuccessModal))
      ensures tcKimlik == old(tcKimlik) && password == old(password)
    {
      if tcKimlik == DemoNationalId && password == DemoPassword {
        loading := true;
        showSuccessModal := true;
        alertShown := false;
      } else {
        alertShown := true;
      }
    }

    /** A press on the button: it only reaches `handleLogin` while enabled. */
    method PressLogin() returns (handled: bool, alertShown: bool)
      requires Valid()
      modifies this
      ensures Valid()
      ensures handled == old(Enabled())
      ensures !handled ==> !alertShown && loading == old(loading) && showSuccessModal == old(showSuccessModal)
      ensures handled ==> alertShown == !(old(tcKimlik) == DemoNationalId && old(password) == DemoPassword)
      ensures handled && !alertShown ==> loading && showSuccessModal && !Enabled()
      ensures old(loading) ==> loading && !Enabled()
    {
      handled, alertShown := Enabled(), false;
      if handled {
        alertShown := HandleLogin();
      }
    }

    /** `handleSuccessModalClose()`, and the timer callback's state change:
        the modal closes; `loading` is not reset. */
    method DismissSuccessModal()
      requires Valid()
      modifies this
      ensures Valid()
      ensures !showSuccessModal
      ensures tcKimlik == old(tcKimlik) && password == old(password) && loading == old(loading)
    {
      showSuccessModal := false;
    }
  }

  /** Every handler keeps `loading` once it is set, so the button stays disabled. */
  method LoadingIsSticky(screen: LoginScreen, text: string) returns (disabled: bool)
    requires screen.Valid() && screen.loading
    modifies screen
    ensures disabled
  {
    screen.HandleTcKimlikChange(text);
    screen.SetPassword(text);
    var _ := screen.HandleLogin();
    screen.DismissSuccessModal();
    var _, _ := screen.PressLogin();
    disabled := screen.loading && !screen.Enabled();
  }

  /** A session at the screen: typing the demo pair and pressing the button
      opens the success modal. */
  method DemoLoginScenario() returns (modalOpen: bool)
    ensures modalOpen
  {
    var screen := new LoginScreen();
    DemoPairPassesGuard();
    screen.HandleTcKimlikChange(DemoNationalId);
    AfterInputStable("", DemoNationalId);
    screen.SetPassword(DemoPassword);
    var handled, alertShown := screen.PressLogin();
    modalOpen := handled && !alertShown && screen.showSuccessModal && screen.loading;
  }
}
