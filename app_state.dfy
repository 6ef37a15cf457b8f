/**
 * The dashboard's state machine (App.tsx): the initial account and contract
 * steps, the login and contract-creation transitions as pure reducers, the
 * contract form's own local state, and the top-level `App` component whose
 * handlers update its state fields.
 */
module AppState {
  import opened Types
  import opened PriceFormat
  import DashboardCards

  // ---------------------------------------------------------------------
  // Initial data (App.tsx:349-400)
  // ---------------------------------------------------------------------

  const EmptyLoginForm: LoginForm := LoginForm("", "", "", "", "")

  /** Before any contract: price, benefit and agenda are the sentinel "-". */
  const InitialAccount: UserAccount :=
    UserAccount("", "-", "-", 60, Some(""), Some("-"), Some(""), Some(""), None)

  const InitialSteps: seq<ContractStep> := [
    ContractStep("Ketentuan", "Pesanan di terbitkan oleh sistem", Done, "1"),
    ContractStep("Proses", "Sistem akan memproses tugas secara otomatis", Done, "2"),
    ContractStep("Agenda", DefaultAgendaDescription, Done, "3"),
    ContractStep("Penyelesaian", "Jika agenda belum selesai, sistem tidak akan mengizinkan penarikan.", Done, "4"),
    ContractStep("Konfirmasi", "Kepada kordinator jika terdapat kendala dalam penyelesaian agenda.", Done, "5")
  ]

  const EmptyContractForm: ContractFormData := ContractFormData("", "", "")

  // ---------------------------------------------------------------------
  // Header (App.tsx:444-450)
  // ---------------------------------------------------------------------

  /** `getHeaderTitle`: two named tabs have their own title, every other tab the default. */
  function HeaderTitle(activeTab: string): (title: string)
    ensures title == "STATISTIK PERFORMA" <==> activeTab == "statistics"
    ensures title == "KETENTUAN SISTEM" <==> activeTab == "regulations"
    ensures title == "KONTRAK AGENDA" <==> activeTab != "statistics" && activeTab != "regulations"
  {
    if activeTab == "statistics" then "STATISTIK PERFORMA"
    else if activeTab == "regulations" then "KETENTUAN SISTEM"
    else "KONTRAK AGENDA"
  }

  // ---------------------------------------------------------------------
  // Login (App.tsx:23-28, 402-412)
  // ---------------------------------------------------------------------

  /** The login guard: every field is a non-empty (truthy) string. */
  predicate LoginComplete(form: LoginForm) {
    form.name != "" && form.dob != "" && form.phone != "" && form.password != "" && form.city != ""
  }

  datatype LoginField = NameField | DobField | PhoneField | PasswordField | CityField

  /** `setData({...data, <field>: value})`: one input's change. */
  function WithLoginField(form: LoginForm, field: LoginField, value: string): LoginForm {
    match field
    case NameField => form.(name := value)
    case DobField => form.(dob := value)
    case PhoneField => form.(phone := value)
    case PasswordField => form.(password := value)
    case CityField => form.(city := value)
  }

  /**
   * `handleLogin`'s account update: the identity fields come from the form,
   * the contract fields and the expiry stay, and the gate is untouched.
   */
  function ApplyLogin(account: UserAccount, form: LoginForm): (r: UserAccount)
    ensures r.name == form.name && r.phoneNumber == Some(form.phone)
    ensures r.dob == Some(form.dob) && r.city == Some(form.city)
    ensures r.price == account.price && r.benefit == account.benefit
    ensures r.agendaNumber == account.agendaNumber && r.expiryMinutes == account.expiryMinutes
    ensures r.profileImage == account.profileImage
    ensures DashboardCards.IsFormEmpty(r) == DashboardCards.IsFormEmpty(account)
  {
    account.(name := form.name, phoneNumber := Some(form.phone), dob := Some(form.dob), city := Some(form.city))
  }

  /** The password is never stored: the account does not depend on it. */
  lemma LoginIgnoresPassword(account: UserAccount, form: LoginForm, password: string)
    ensures ApplyLogin(account, form.(password := password)) == ApplyLogin(account, form)
  {
  }

  // ---------------------------------------------------------------------
  // Contract creation (App.tsx:160-165, 414-441)
  // ---------------------------------------------------------------------

  /** The contract form's guard: agenda, price and benefit are all non-empty. */
  predicate ContractFormComplete(data: ContractFormData) {
    data.agenda != "" && data.price != "" && data.benefit != ""
  }

  /**
   * `handleCreateContract`'s account update: the agenda is stored verbatim,
   * the price and benefit normalised, and every other field kept; the gate
   * is closed exactly when the agenda is not "-".
   */
  function ApplyContract(account: UserAccount, data: ContractFormData): (r: UserAccount)
    ensures r.agendaNumber == Some(data.agenda)
    ensures StartsWith(r.price, "Rp") && (StartsWith(data.price, "Rp") ==> r.price == data.price)
    ensures '%' in r.benefit && ('%' in data.benefit ==> r.benefit == data.benefit)
    ensures NumericPrice(r.price) == NumericPrice(data.price)
    ensures r.(agendaNumber := account.agendaNumber, price := account.price, benefit := account.benefit) == account
    ensures DashboardCards.IsFormEmpty(r) <==> data.agenda == "-"
  {
    NormalizePriceKeepsValue(data.price);
    account.(agendaNumber := Some(data.agenda),
             price := NormalizePrice(data.price),
             benefit := NormalizeBenefit(data.benefit))
  }

  /** The step that receives the threshold text; every other step passes through. */
  function WithAgendaDescription(step: ContractStep, description: string): ContractStep {
    if step.key == "3" then step.(description := description) else step
  }

  /** Same length, and the same key, label and status at every position. */
  predicate SameSkeleton(a: seq<ContractStep>, b: seq<ContractStep>) {
    |a| == |b| &&
    forall i :: 0 <= i < |a| ==>
      a[i].key == b[i].key && a[i].stepLabel == b[i].stepLabel && a[i].status == b[i].status
  }

  /**
   * `prevSteps.map(...)` (App.tsx:433-438): the step list keeps its length,
   * order, keys, labels and statuses; only descriptions of steps keyed "3"
   * change, to `description`.
   */
  function UpdateAgendaStep(steps: seq<ContractStep>, description: string): (r: seq<ContractStep>)
    ensures SameSkeleton(r, steps)
    ensures forall i :: 0 <= i < |steps| ==>
      r[i].description == if steps[i].key == "3" then description else steps[i].description
  {
    seq(|steps|, i requires 0 <= i < |steps| => WithAgendaDescription(steps[i], description))
  }

  /** The step list after a contract: step "3" describes the threshold choice for the price. */
  function StepsAfterContract(steps: seq<ContractStep>, data: ContractFormData): (r: seq<ContractStep>)
    ensures SameSkeleton(r, steps)
    ensures forall i :: 0 <= i < |steps| && steps[i].key == "3" ==>
      r[i].description == AgendaDescription(NumericPrice(data.price)) &&
      (r[i].description == AlternateAgendaDescription <==> NumericPrice(data.price) >= Threshold) &&
      (r[i].description == DefaultAgendaDescription <==> NumericPrice(data.price) < Threshold)
    ensures forall i :: 0 <= i < |steps| && steps[i].key != "3" ==> r[i] == steps[i]
  {
    UpdateAgendaStep(steps, AgendaDescription(NumericPrice(data.price)))
  }

  /** A second contract overwrites the first entirely: no merge, no history. */
  lemma ContractResubmissionOverwrites(account: UserAccount, steps: seq<ContractStep>,
                                       first: ContractFormData, second: ContractFormData)
    ensures ApplyContract(ApplyContract(account, first), second) == ApplyContract(account, second)
    ensures StepsAfterContract(StepsAfterContract(steps, first), second) == StepsAfterContract(steps, second)
  {
  }

  /**
   * The stored values are already normalised: submitting them again stores
   * them unchanged, and the stored price carries the number the threshold
   * rule compared.
   */
  lemma ContractNormalisationIdempotent(account: UserAccount, data: ContractFormData)
    ensures var r := ApplyContract(account, data);
      NormalizePrice(r.price) == r.price && NormalizeBenefit(r.benefit) == r.benefit &&
      ApplyContract(r, ContractFormData(data.agenda, r.price, r.benefit)) == r
  {
  }

  // ---------------------------------------------------------------------
  // Contract form modal (App.tsx:157-181)
  // ---------------------------------------------------------------------

  /**
   * The modal's own form state, created empty when the modal mounts and
   * discarded when it closes. Its price only ever holds what the keystroke
   * formatter produced, which is a fixed point of the formatter.
   */
  class ContractFormModal {
    var formData: ContractFormData

    ghost predicate Valid()
      reads this
    {
      FormatPriceInput(formData.price) == formData.price
    }

    constructor ()
      ensures Valid() && formData == EmptyContractForm
    {
      formData := EmptyContractForm;
    }

    /** The agenda input's change handler (App.tsx:210). */
    method SetAgenda(value: string)
      requires Valid()
      modifies this
      ensures Valid() && formData == old(formData).(agenda := value)
    {
      formData := formData.(agenda := value);
    }

    /** The benefit input's change handler (App.tsx:242). */
    method SetBenefit(value: string)
      requires Valid()
      modifies this
      ensures Valid() && formData == old(formData).(benefit := value)
    {
      formData := formData.(benefit := value);
    }

    /** `handlePriceChange`: only the price changes, to the formatted input. */
    method HandlePriceChange(value: string)
      requires Valid()
      modifies this
      ensures Valid() && formData == old(formData).(price := FormatPriceInput(value))
    {
      FormatPriceInputIdempotent(value);
      formData := formData.(price := FormatPriceInput(value));
    }

    /**
     * `handleSubmit`: the form is forwarded exactly when all three fields
     * are filled, and a forwarded price always starts with "Rp ".
     */
    method HandleSubmit() returns (submitted: Option<ContractFormData>)
      requires Valid()
      ensures submitted.Some? <==> ContractFormComplete(formData)
      ensures submitted.Some? ==> submitted.value == formData && StartsWith(submitted.value.price, RpPrefix)
    {
      if ContractFormComplete(formData) {
        FormatPriceInputSpec(formData.price);
        submitted := Some(formData);
      } else {
        submitted := None;
      }
    }
  }

  // ---------------------------------------------------------------------
  // The App component (App.tsx:339-441, 477-579)
  // ---------------------------------------------------------------------

  /** Every state field of the App component at once. */
  datatype AppView = AppView(
    isLoggedIn: bool,
    activeTab: string,
    isSidebarOpen: bool,
    showContractModal: bool,
    showProfileModal: bool,
    loginForm: LoginForm,
    userAccount: UserAccount,
    contractSteps: seq<ContractStep>)

  class App {
    var isLoggedIn: bool
    var activeTab: string
    var isSidebarOpen: bool
    var showContractModal: bool
    var showProfileModal: bool
    var loginForm: LoginForm
    var userAccount: UserAccount
    var contractSteps: seq<ContractStep>

    ghost function State(): AppView
      reads this
    {
      AppView(isLoggedIn, activeTab, isSidebarOpen, showContractModal, showProfileModal,
              loginForm, userAccount, contractSteps)
    }

    /**
     * What every handler keeps: the five fixed steps, the static expiry and
     * the absent profile image; an untouched account and step list before
     * login; overlays only after login; and once the gate is closed, a
     * normalised price and benefit.
     */
    ghost predicate Valid()
      reads this
    {
      SameSkeleton(contractSteps, InitialSteps) &&
      userAccount.expiryMinutes == 60 && userAccount.profileImage == None &&
      userAccount.agendaNumber.Some? &&
      (!isLoggedIn ==> userAccount == InitialAccount && contractSteps == InitialSteps) &&
      (showContractModal || showProfileModal || isSidebarOpen ==> isLoggedIn) &&
      (!DashboardCards.IsFormEmpty(userAccount) ==>
         StartsWith(userAccount.price, "Rp") && '%' in userAccount.benefit)
    }

    /** The component's first render (App.tsx:341-400). */
    constructor ()
      ensures Valid()
      ensures State() == AppView(false, "dashboard", false, false, false,
                                 EmptyLoginForm, InitialAccount, InitialSteps)
      ensures DashboardCards.RenderAccountCard(userAccount).showsFillAgendaButton
    {
      isLoggedIn := false;
      activeTab := "dashboard";
      isSidebarOpen := false;
      showContractModal := false;
      showProfileModal := false;
      loginForm := EmptyLoginForm;
      userAccount := InitialAccount;
      contractSteps := InitialSteps;
    }

    /** A login input's change handler (App.tsx:63-126). */
    method EditLoginField(field: LoginField, value: string)
      requires Valid() && !isLoggedIn
      modifies this
      ensures Valid()
      ensures State() == old(State()).(loginForm := WithLoginField(old(loginForm), field, value))
    {
      loginForm := WithLoginField(loginForm, field, value);
    }

    /** `handleLogin`: copy the identity fields and enter the dashboard. */
    method HandleLogin()
      requires Valid() && !isLoggedIn
      modifies this
      ensures Valid()
      ensures State() == old(State()).(userAccount := ApplyLogin(old(userAccount), old(loginForm)),
                                       isLoggedIn := true)
    {
      userAccount := ApplyLogin(userAccount, loginForm);
      isLoggedIn := true;
    }

    /** The login screen's `handleSubmit`: log in exactly when every field is filled. */
    method SubmitLogin()
      requires Valid() && !isLoggedIn
      modifies this
      ensures Valid()
      ensures isLoggedIn <==> LoginComplete(old(loginForm))
      ensures LoginComplete(old(loginForm)) ==>
        State() == old(State()).(userAccount := ApplyLogin(old(userAccount), old(loginForm)),
                                 isLoggedIn := true)
      ensures !LoginComplete(old(loginForm)) ==> State() == old(State())
    {
      if LoginComplete(loginForm) {
        HandleLogin();
      }
    }

    /** The account card's "Isi Formulir Agenda" button, shown only while the gate is open (App.tsx:579). */
    method OpenContractModal()
      requires Valid() && isLoggedIn && activeTab == "dashboard"
      requires DashboardCards.RenderAccountCard(userAccount).showsFillAgendaButton
      modifies this
      ensures Valid()
      ensures State() == old(State()).(showContractModal := true)
    {
      showContractModal := true;
    }

    /** The contract form's close button (App.tsx:477): account and steps stay as they were. */
    method CloseContractModal()
      requires Valid() && showContractModal
      modifies this
      ensures Valid()
      ensures State() == old(State()).(showContractModal := false)
    {
      showContractModal := false;
    }

    /** The header's profile section (App.tsx:553). */
    method OpenProfileModal()
      requires Valid() && isLoggedIn
      modifies this
      ensures Valid()
      ensures State() == old(State()).(showProfileModal := true)
    {
      showProfileModal := true;
    }

    /** The profile modal's close button (App.tsx:483). */
    method CloseProfileModal()
      requires Valid() && showProfileModal
      modifies this
      ensures Valid()
      ensures State() == old(State()).(showProfileModal := false)
    {
      showProfileModal := false;
    }

    /** The header's menu button (App.tsx:500). */
    method OpenSidebar()
      requires Valid() && isLoggedIn
      modifies this
      ensures Valid()
      ensures State() == old(State()).(isSidebarOpen := true)
    {
      isSidebarOpen := true;
    }

    /**
     * `handleCreateContract`: store the agenda and the normalised price and
     * benefit, set step "3" by the threshold rule, and close the modal. The
     * gate closes unless the agenda typed was "-" itself, and the contract
     * card's third row shows the chosen text.
     */
    method HandleCreateContract(data: ContractFormData)
      requires Valid() && showContractModal
      modifies this
      ensures Valid()
      ensures State() == old(State()).(userAccount := ApplyContract(old(userAccount), data),
                                       contractSteps := StepsAfterContract(old(contractSteps), data),
                                       showContractModal := false)
      ensures DashboardCards.RenderAccountCard(userAccount).showsFillAgendaButton <==> data.agenda == "-"
      ensures DashboardCards.RenderContractStatusCard(contractSteps)[2].description
              == AgendaDescription(NumericPrice(data.price))
    {
      var agendaDescription := AgendaDescription(NumericPrice(data.price));
      userAccount := ApplyContract(userAccount, data);
      contractSteps := UpdateAgendaStep(contractSteps, agendaDescription);
      showContractModal := false;
    }

    /**
     * The form's submit button while the modal is open: nothing changes
     * unless all three fields are filled; then the contract is created and
     * the formatted price is stored exactly as the form showed it.
     */
    method SubmitContractForm(form: ContractFormModal)
      requires Valid() && showContractModal && form.Valid()
      modifies this
      ensures Valid()
      ensures !ContractFormComplete(form.formData) ==> State() == old(State())
      ensures ContractFormComplete(form.formData) ==>
        State() == old(State()).(userAccount := ApplyContract(old(userAccount), form.formData),
                                 contractSteps := StepsAfterContract(old(contractSteps), form.formData),
                                 showContractModal := false) &&
        userAccount.price == form.formData.price
    {
      var submitted := form.HandleSubmit();
      if submitted.Some? {
        HandleCreateContract(submitted.value);
      }
    }
  }

  /** Submitting Budi's login with the password and city still empty is refused. */
  method IncompleteLoginScenario() returns (app: App)
    ensures fresh(app) && app.Valid() && !app.isLoggedIn && app.activeTab == "dashboard"
    ensures app.userAccount == InitialAccount
    ensures app.loginForm == LoginForm("Budi", "1990-01-01", "0812", "", "")
  {
    app := new App();
    app.EditLoginField(NameField, "Budi");
    app.EditLoginField(DobField, "1990-01-01");
    app.EditLoginField(PhoneField, "0812");
    app.SubmitLogin();
  }

  /** Completing that login: once all five fields are filled, the user enters the dashboard. */
  method LoginScenario() returns (app: App)
    ensures fresh(app) && app.Valid() && app.isLoggedIn && app.activeTab == "dashboard"
    ensures app.userAccount.name == "Budi" && app.userAccount.city == Some("Jakarta")
    ensures DashboardCards.RenderAccountCard(app.userAccount).showsFillAgendaButton
  {
    app := IncompleteLoginScenario();
    app.EditLoginField(PasswordField, "x");
    app.EditLoginField(CityField, "Jakarta");
    app.SubmitLogin();
  }

  /** What saving agenda 2 at "Rp 100.000" and benefit "20" stores in the account. */
  lemma ExampleContractAccount(account: UserAccount)
    ensures var r := ApplyContract(account, ContractFormData("2", "Rp 100.000", "20"));
      r.agendaNumber == Some("2") && r.price == "Rp 100.000" && r.benefit == "20%"
  {
    assert StartsWith("Rp 100.000", "Rp");
    assert NormalizePrice("Rp 100.000") == "Rp 100.000";
    assert '%' !in "20";
    assert NormalizeBenefit("20") == "20%";
  }

  /** ... and in step "3": 100000 is below the threshold. */
  lemma ExampleContractSteps(steps: seq<ContractStep>)
    requires SameSkeleton(steps, InitialSteps)
    ensures StepsAfterContract(steps, ContractFormData("2", "Rp 100.000", "20"))[2].description
            == DefaultAgendaDescription
  {
    PriceKeystrokeExample("100000");
    assert steps[2].key == "3";
  }

  /** Saving agenda 2 with a typed price of 100000 and a benefit of 20. */
  method ContractScenario(app: App)
    requires app.Valid() && app.isLoggedIn && app.activeTab == "dashboard"
    requires DashboardCards.RenderAccountCard(app.userAccount).showsFillAgendaButton
    modifies app
    ensures app.Valid() && !app.showContractModal
    ensures app.userAccount.agendaNumber == Some("2")
    ensures app.userAccount.price == "Rp 100.000" && app.userAccount.benefit == "20%"
    ensures app.contractSteps[2].description == DefaultAgendaDescription
    ensures !DashboardCards.RenderAccountCard(app.userAccount).showsFillAgendaButton
  {
    app.OpenContractModal();
    var form := new ContractFormModal();
    form.SetAgenda("2");
    form.HandlePriceChange("100000");
    form.SetBenefit("20");
    PriceKeystrokeExample("100000");
    var data := ContractFormData("2", "Rp 100.000", "20");
    assert form.formData == data && ContractFormComplete(data);
    var account, steps := app.userAccount, app.contractSteps;
    ExampleContractAccount(account);
    ExampleContractSteps(steps);
    app.SubmitContractForm(form);
    assert app.State().userAccount == ApplyContract(account, data);
    assert app.State().contractSteps == StepsAfterContract(steps, data);
  }
}
