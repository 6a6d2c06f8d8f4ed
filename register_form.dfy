/**
 * The registration form (Register.jsx): field validation for the customer
 * and seller tabs, the per-field error clearing on edit, and the payload
 * sent to the customer or seller registration.
 */
module RegisterForm {
  import opened Wrappers
  import opened JsText

  datatype Tab = CustomerTab | SellerTab

  datatype Field =
    | Username | Email | Password | ConfirmPassword | FirstName | LastName
    | Phone | Address | BusinessName | BusinessAddress | BusinessPhone

  datatype Form = Form(
    username: string, email: string, password: string, confirmPassword: string,
    firstName: string, lastName: string, phone: string, address: string,
    businessName: string, businessAddress: string, businessPhone: string)

  const EmptyForm := Form("", "", "", "", "", "", "", "", "", "", "")

  function Get(f: Form, k: Field): string {
    match k
    case Username => f.username
    case Email => f.email
    case Password => f.password
    case ConfirmPassword => f.confirmPassword
    case FirstName => f.firstName
    case LastName => f.lastName
    case Phone => f.phone
    case Address => f.address
    case BusinessName => f.businessName
    case BusinessAddress => f.businessAddress
    case BusinessPhone => f.businessPhone
  }

  /** `{ ...prev, [name]: value }`. */
  function WithField(f: Form, k: Field, value: string): (r: Form)
    ensures Get(r, k) == value
    ensures forall other :: other != k ==> Get(r, other) == Get(f, other)
  {
    match k
    case Username => f.(username := value)
    case Email => f.(email := value)
    case Password => f.(password := value)
    case ConfirmPassword => f.(confirmPassword := value)
    case FirstName => f.(firstName := value)
    case LastName => f.(lastName := value)
    case Phone => f.(phone := value)
    case Address => f.(address := value)
    case BusinessName => f.(businessName := value)
    case BusinessAddress => f.(businessAddress := value)
    case BusinessPhone => f.(businessPhone := value)
  }

  predicate NoSpaceIn(t: string) {
    forall i :: 0 <= i < |t| ==> !IsSpace(t[i])
  }

  /**
   * The unanchored pattern `\S+@\S+\.\S+`: somewhere there is a non-space
   * character, then '@', then a non-empty run of non-space characters, then
   * '.', then a non-space character.
   */
  predicate EmailPattern(s: string) {
    exists j, k :: 1 <= j && j + 2 <= k && k + 1 < |s| && s[j] == '@' && s[k] == '.' &&
                   !IsSpace(s[j - 1]) && NoSpaceIn(s[j + 1..k]) && !IsSpace(s[k + 1])
  }

  /** A matching address has an '@', a later '.', and at least five characters. */
  lemma EmailPatternShape(s: string)
    requires EmailPattern(s)
    ensures |s| >= 5
    ensures exists j, k :: 0 <= j < k < |s| && s[j] == '@' && s[k] == '.'
  {
  }

  /** A plain address matches; so does one inside other text, since the pattern is unanchored. */
  lemma EmailPatternAccepts()
    ensures EmailPattern("a@b.co")
  {
    var s := "a@b.co";
    assert NoSpaceIn(s[2..3]);
    EmailWitness(s, 1, 3);
  }

  lemma EmailPatternUnanchored()
    ensures EmailPattern("x <a@b.c>")
  {
    var t := "x <a@b.c>";
    assert NoSpaceIn(t[5..6]);
    EmailWitness(t, 4, 6);
  }

  /** No dot after the '@', or a space just before it, fails the pattern. */
  lemma EmailPatternNeedsDot()
    ensures !EmailPattern("a@b")
  {
  }

  lemma EmailPatternNeedsTextBeforeAt()
    ensures !EmailPattern("a @b.c")
  {
    var u := "a @b.c";
    assert forall j :: 0 <= j < |u| && u[j] == '@' ==> j == 2;
    assert u[1] == ' ';
    SpaceBeforeOnlyAt(u, 2);
  }

  /** With a space just before its only '@', a string fails the pattern. */
  lemma SpaceBeforeOnlyAt(s: string, i: nat)
    requires 1 <= i < |s| && IsSpace(s[i - 1])
    requires forall j :: 0 <= j < |s| && s[j] == '@' ==> j == i
    ensures !EmailPattern(s)
  {
  }

  lemma EmailWitness(s: string, j: int, k: int)
    requires 1 <= j && j + 2 <= k && k + 1 < |s| && s[j] == '@' && s[k] == '.'
    requires !IsSpace(s[j - 1]) && NoSpaceIn(s[j + 1..k]) && !IsSpace(s[k + 1])
    ensures EmailPattern(s)
  {
  }

  /** The message recorded for one field, if any. */
  function FieldError(f: Form, tab: Tab, k: Field): Option<string> {
    match k
    case Username => if IsBlank(f.username) then Some("Username is required") else None
    case Email =>
      if IsBlank(f.email) then Some("Email is required")
      else if !EmailPattern(f.email) then Some("Email is invalid")
      else None
    case Password =>
      if f.password == "" then Some("Password is required")
      else if |f.password| < 6 then Some("Password must be at least 6 characters")
      else None
    case ConfirmPassword => if f.password != f.confirmPassword then Some("Passwords do not match") else None
    case FirstName => if IsBlank(f.firstName) then Some("First name is required") else None
    case LastName => if IsBlank(f.lastName) then Some("Last name is required") else None
    case Phone => None
    case Address => None
    case BusinessName =>
      if tab == SellerTab && IsBlank(f.businessName) then Some("Business name is required") else None
    case BusinessAddress =>
      if tab == SellerTab && IsBlank(f.businessAddress) then Some("Business address is required") else None
    case BusinessPhone =>
      if tab == SellerTab && IsBlank(f.businessPhone) then Some("Business phone is required") else None
  }

  /** `newErrors` after `validateForm`: exactly the fields with a message. */
  function FormErrors(f: Form, tab: Tab): (r: map<Field, string>)
    ensures forall k :: k in r <==> FieldError(f, tab, k).Some?
    ensures forall k :: k in r ==> r[k] == FieldError(f, tab, k).value && r[k] != ""
  {
    map k: Field | FieldError(f, tab, k).Some? :: FieldError(f, tab, k).value
  }

  /**
   * What the form demands. Blankness is the empty trim (see
   * `JsText.TrimEmptyIffBlank`); phone and address are never checked, and the
   * business fields only on the seller tab.
   */
  predicate Acceptable(f: Form, tab: Tab) {
    && !IsBlank(f.username)
    && !IsBlank(f.email) && EmailPattern(f.email)
    && |f.password| >= 6
    && f.password == f.confirmPassword
    && !IsBlank(f.firstName) && !IsBlank(f.lastName)
    && (tab == SellerTab ==> !IsBlank(f.businessName) && !IsBlank(f.businessAddress) && !IsBlank(f.businessPhone))
  }

  /** `validateForm()` returns true exactly when the form is acceptable. */
  lemma ValidIffAcceptable(f: Form, tab: Tab)
    ensures FormErrors(f, tab) == map[] <==> Acceptable(f, tab)
  {
    if Acceptable(f, tab) {
      AcceptableHasNoErrors(f, tab);
    } else {
      UnacceptableHasAnError(f, tab);
    }
  }

  /** A form that fails a demand has a message for that field. */
  lemma UnacceptableHasAnError(f: Form, tab: Tab)
    requires !Acceptable(f, tab)
    ensures FormErrors(f, tab) != map[]
  {
    var k: Field :=
      if IsBlank(f.username) then Username
      else if IsBlank(f.email) || !EmailPattern(f.email) then Email
      else if |f.password| < 6 then Password
      else if f.password != f.confirmPassword then ConfirmPassword
      else if IsBlank(f.firstName) then FirstName
      else if IsBlank(f.lastName) then LastName
      else if IsBlank(f.businessName) then BusinessName
      else if IsBlank(f.businessAddress) then BusinessAddress
      else BusinessPhone;
    assert FieldError(f, tab, k).Some?;
    assert k in FormErrors(f, tab);
  }

  /** A form meeting every demand has no message at all. */
  lemma AcceptableHasNoErrors(f: Form, tab: Tab)
    requires Acceptable(f, tab)
    ensures FormErrors(f, tab) == map[]
  {
    var r := FormErrors(f, tab);
    forall k: Field ensures k !in r {
      match k
      case Username =>
      case Email =>
      case Password =>
      case ConfirmPassword =>
      case FirstName =>
      case LastName =>
      case Phone =>
      case Address =>
      case BusinessName =>
      case BusinessAddress =>
      case BusinessPhone =>
    }
  }

  /** A mismatched confirmation is an error on either tab, whatever else the form holds. */
  lemma MismatchIsAlwaysAnError(f: Form, tab: Tab)
    requires f.password != f.confirmPassword
    ensures FormErrors(f, tab)[ConfirmPassword] == "Passwords do not match"
  {
  }

  /** On the customer tab the business fields do not affect validation. */
  lemma CustomerIgnoresBusinessFields(f: Form, k: Field, value: string)
    requires k in {BusinessName, BusinessAddress, BusinessPhone}
    ensures FormErrors(WithField(f, k, value), CustomerTab) == FormErrors(f, CustomerTab)
  {
    var g := WithField(f, k, value);
    forall j: Field ensures FieldError(g, CustomerTab, j) == FieldError(f, CustomerTab, j) {
      if j != k {
        assert Get(g, j) == Get(f, j);
      }
      match j
      case Username => assert Get(g, Username) == Get(f, Username);
      case Email => assert Get(g, Email) == Get(f, Email);
      case Password => assert Get(g, Password) == Get(f, Password);
      case ConfirmPassword =>
        assert Get(g, Password) == Get(f, Password);
        assert Get(g, ConfirmPassword) == Get(f, ConfirmPassword);
      case FirstName => assert Get(g, FirstName) == Get(f, FirstName);
      case LastName => assert Get(g, LastName) == Get(f, LastName);
      case Phone =>
      case Address =>
      case BusinessName =>
      case BusinessAddress =>
      case BusinessPhone =>
    }
  }

  /** The seven user fields both registrations carry; there is no confirmation field. */
  datatype UserData = UserData(
    username: string, email: string, password: string,
    firstName: string, lastName: string, phone: string, address: string)

  datatype RegisterCall =
    | RegisterCustomer(user: UserData)
    | RegisterSeller(user: UserData, businessName: string, businessAddress: string, businessPhone: string)

  /** The payload `handleSubmit` builds for the active tab. */
  function Payload(f: Form, tab: Tab): (r: RegisterCall)
    ensures r.RegisterCustomer? <==> tab == CustomerTab
    ensures r.user.username == f.username && r.user.email == f.email && r.user.password == f.password
    ensures r.user.firstName == f.firstName && r.user.lastName == f.lastName
    ensures r.user.phone == f.phone && r.user.address == f.address
    ensures r.RegisterSeller? ==>
              r.businessName == f.businessName && r.businessAddress == f.businessAddress && r.businessPhone == f.businessPhone
  {
    var user := UserData(f.username, f.email, f.password, f.firstName, f.lastName, f.phone, f.address);
    if tab == CustomerTab then RegisterCustomer(user)
    else RegisterSeller(user, f.businessName, f.businessAddress, f.businessPhone)
  }

  /** The payload does not depend on the confirmation the user typed. */
  lemma PayloadIgnoresConfirmation(f: Form, tab: Tab, confirm: string)
    ensures Payload(f.(confirmPassword := confirm), tab) == Payload(f, tab)
  {
  }

  class RegisterPage {
    var formData: Form
    var errors: map<Field, string>
    var activeTab: Tab
    var loading: bool

    constructor()
      ensures formData == EmptyForm && errors == map[] && activeTab == CustomerTab && !loading
    {
      formData := EmptyForm;
      errors := map[];
      activeTab := CustomerTab;
      loading := false;
    }

    /** `handleInputChange`: store the value; a shown error on that field is blanked, others stay. */
    method HandleInputChange(name: Field, value: string)
      modifies this
      ensures formData == WithField(old(formData), name, value)
      ensures name in old(errors) && old(errors)[name] != "" ==> errors == old(errors)[name := ""]
      ensures !(name in old(errors) && old(errors)[name] != "") ==> errors == old(errors)
      ensures forall k :: k != name ==> (k in errors <==> k in old(errors)) && (k in errors ==> errors[k] == old(errors)[k])
      ensures activeTab == old(activeTab) && loading == old(loading)
    {
      formData := WithField(formData, name, value);
      if name in errors && errors[name] != "" {
        errors := errors[name := ""];
      }
    }

    method SelectTab(tab: Tab)
      modifies this
      ensures activeTab == tab && formData == old(formData) && errors == old(errors) && loading == old(loading)
    {
      activeTab := tab;
    }

    /** `validateForm`: replace the errors and report whether there are none. */
    method ValidateForm() returns (valid: bool)
      modifies this
      ensures errors == FormErrors(formData, activeTab)
      ensures formData == old(formData) && activeTab == old(activeTab) && loading == old(loading)
      ensures valid <==> Acceptable(formData, activeTab)
    {
      errors := FormErrors(formData, activeTab);
      ValidIffAcceptable(formData, activeTab);
      valid := |errors| == 0;
      assert valid <==> errors == map[];
    }

    /**
     * `handleSubmit`: an invalid form makes no call; otherwise the tab's
     * registration is called, and only a reply with success leads to the
     * login page. A rejected call is swallowed.
     */
    method HandleSubmit(reply: Outcome<bool>) returns (call: Option<RegisterCall>, toLogin: bool)
      modifies this
      ensures errors == FormErrors(old(formData), old(activeTab))
      ensures formData == old(formData) && activeTab == old(activeTab)
      ensures call.Some? <==> Acceptable(formData, activeTab)
      ensures call.Some? ==> call.value == Payload(formData, activeTab) && !loading
      ensures call.None? ==> loading == old(loading)
      ensures toLogin <==> call.Some? && reply == Returned(true)
    {
      var valid := ValidateForm();
      if !valid {
        return None, false;
      }
      loading := true;
      call := Some(Payload(formData, activeTab));
      toLogin := reply == Returned(true);
      loading := false;
    }
  }
}
