/**
 * The top-level component of src/App.tsx: the session user, the page
 * selected in the navigation bar and the data of the last analysis, the
 * login and register handlers over the storage helpers, and which screen is
 * rendered for a state.
 */
module App {
  import opened Wrappers
  import opened Auth
  import opened MockData
  import opened LoginForm
  import opened ModelPage
  import opened Interpretability

  /** The `analysisData` state: the profile and the prediction handed over by the model page. */
  datatype AnalysisData = AnalysisData(profile: Option<Profile>, result: Option<Prediction>)

  const NoAnalysis: AnalysisData := AnalysisData(None, None)

  const HomePageName: string := "home"
  const ModelPageName: string := "model"
  const InterpretabilityPageName: string := "interpretability"
  const ResultsPageName: string := "results"
  const AboutPageName: string := "about"

  /** What App renders: the login form, or the navigation bar above one page. */
  datatype Screen =
    | LoginScreen
    | HomeScreen
    | ModelScreen
    | InterpretabilityScreen(view: View)
    | ResultsScreen
    | AboutScreen

  /** The early return for a missing user, then renderCurrentPage's switch with its default. */
  function Render(user: Option<User>, page: string, data: AnalysisData): Screen
  {
    if user.None? then LoginScreen
    else if page == HomePageName then HomeScreen
    else if page == ModelPageName then ModelScreen
    else if page == InterpretabilityPageName then InterpretabilityScreen(ViewOf(data.profile, data.result))
    else if page == ResultsPageName then ResultsScreen
    else if page == AboutPageName then AboutScreen
    else HomeScreen
  }

  /** Without a session user the login form is shown, whatever page and data are held. */
  lemma NoUserShowsLoginForm(user: Option<User>, page: string, data: AnalysisData)
    ensures Render(user, page, data) == LoginScreen <==> user.None?
  {
  }

  /** A page name outside the five known ones renders the home page. */
  lemma UnknownPageShowsHome(user: User, page: string, data: AnalysisData)
    requires page !in {HomePageName, ModelPageName, InterpretabilityPageName, ResultsPageName, AboutPageName}
    ensures Render(Some(user), page, data) == HomeScreen
  {
  }

  /** The session user handleLogin creates: the name is id and username, the email is made up from it. */
  function LoginUser(username: string): (u: User)
    ensures u.id == username && u.username == username && u.isAuthenticated
    ensures u.email == username + "@example.com"
  {
    User(username, username, username + "@example.com", true)
  }

  /** The session user handleRegister creates, with the email given at registration. */
  function RegisteredUser(username: string, email: string): (u: User)
    ensures u.id == username && u.username == username && u.isAuthenticated
    ensures u.email == email
  {
    User(username, username, email, true)
  }

  class AppState {
    /** The browser storage the auth helpers read and write. */
    const store: Store
    var user: Option<User>
    var currentPage: string
    var analysisData: AnalysisData

    constructor (store: Store)
      ensures this.store == store
      ensures user == None && currentPage == HomePageName && analysisData == NoAnalysis
    {
      this.store := store;
      user := None;
      currentPage := HomePageName;
      analysisData := NoAnalysis;
    }

    function CurrentScreen(): Screen
      reads this
    {
      Render(user, currentPage, analysisData)
    }

    /** The mount effect: a stored session user is restored, otherwise nothing changes. */
    method Start()
      modifies this
      ensures user == if store.currentUserRecord.Some? then store.currentUserRecord else old(user)
      ensures currentPage == old(currentPage) && analysisData == old(analysisData)
    {
      var storedUser := store.GetCurrentUser();
      if storedUser.Some? {
        user := storedUser;
      }
    }

    /** handleLogin: on valid credentials the new user is stored and becomes the session user. */
    method HandleLogin(username: string, password: string) returns (success: bool)
      modifies this, store
      ensures success <==> Accepts(old(store.StoredUsers()), username, password)
      ensures success ==> user == Some(LoginUser(username)) && store.currentUserRecord == Some(LoginUser(username))
      ensures !success ==> user == old(user) && store.currentUserRecord == old(store.currentUserRecord)
      ensures store.usersRecord == old(store.usersRecord)
      ensures currentPage == old(currentPage) && analysisData == old(analysisData)
    {
      var valid := store.ValidateLogin(username, password);
      if valid {
        var newUser := LoginUser(username);
        store.SetCurrentUser(newUser);
        user := Some(newUser);
        return true;
      }
      return false;
    }

    /** handleRegister: a fresh name is registered, stored as session user and logged in. */
    method HandleRegister(username: string, password: string, email: string) returns (success: bool)
      modifies this, store
      ensures success <==> username !in old(store.StoredUsers())
      ensures success ==> store.usersRecord == Some(WithCred(old(store.StoredUsers()), username, password, email))
      ensures success ==> user == Some(RegisteredUser(username, email)) && store.currentUserRecord == user
      ensures !success ==> user == old(user) && store.usersRecord == old(store.usersRecord)
      ensures !success ==> store.currentUserRecord == old(store.currentUserRecord)
      ensures currentPage == old(currentPage) && analysisData == old(analysisData)
    {
      var registered := store.RegisterUser(username, password, email);
      if registered {
        var newUser := RegisteredUser(username, email);
        store.SetCurrentUser(newUser);
        user := Some(newUser);
        return true;
      }
      return false;
    }

    /** handleLogout: the session ends, the page returns home and the analysis data is dropped. */
    method HandleLogout()
      modifies this, store
      ensures user == None && currentPage == HomePageName && analysisData == NoAnalysis
      ensures store.currentUserRecord == None && store.usersRecord == old(store.usersRecord)
      ensures CurrentScreen() == LoginScreen
    {
      store.Logout();
      user := None;
      currentPage := HomePageName;
      analysisData := NoAnalysis;
    }

    /** handleAnalysisComplete: the pair is kept and the interpretability page is selected. */
    method HandleAnalysisComplete(profile: Profile, result: Prediction)
      modifies this
      ensures analysisData == AnalysisData(Some(profile), Some(result))
      ensures currentPage == InterpretabilityPageName
      ensures user == old(user)
      ensures user.Some? ==> CurrentScreen() == InterpretabilityScreen(Report(profile, result))
    {
      analysisData := AnalysisData(Some(profile), Some(result));
      currentPage := InterpretabilityPageName;
    }

    /** The `onPageChange` callback of the navigation bar and the home page. */
    method SetCurrentPage(page: string)
      modifies this
      ensures currentPage == page
      ensures user == old(user) && analysisData == old(analysisData)
    {
      currentPage := page;
    }

    /**
     * A submit of the login form wired to handleLogin and handleRegister, as
     * App renders it. With storage read as values neither handler throws, so
     * the exception path is not reached from here.
     */
    method SubmitLoginForm(form: LoginFormState) returns (request: Option<Request>)
      modifies this, store, form
      ensures request == RequestFor(old(form.isLogin), old(form.formData))
      ensures !form.loading && form.isLogin == old(form.isLogin) && form.formData == old(form.formData)
      ensures request == None ==>
        form.error == EmailRequired && user == old(user) &&
        store.usersRecord == old(store.usersRecord) && store.currentUserRecord == old(store.currentUserRecord)
      ensures request.Some? && request.value.LoginRequest? ==>
        var r := request.value;
        && (form.error == "" <==> Accepts(old(store.StoredUsers()), r.username, r.password))
        && (form.error != "" ==> form.error == InvalidCredentials && user == old(user))
        && (form.error == "" ==> user == Some(LoginUser(r.username)) && store.currentUserRecord == user)
        && (form.error != "" ==> store.currentUserRecord == old(store.currentUserRecord))
        && store.usersRecord == old(store.usersRecord)
      ensures request.Some? && request.value.RegisterRequest? ==>
        var r := request.value;
        && (form.error == "" <==> r.username !in old(store.StoredUsers()))
        && (form.error != "" ==> form.error == UsernameTaken && user == old(user))
        && (form.error == "" ==> user == Some(RegisteredUser(r.username, r.email)) && store.currentUserRecord == user)
        && (form.error == "" ==>
              store.usersRecord == Some(WithCred(old(store.StoredUsers()), r.username, r.password, r.email)))
        && (form.error == "" ==> Accepts(store.StoredUsers(), r.username, r.password))
        && (form.error != "" ==>
              store.usersRecord == old(store.usersRecord) && store.currentUserRecord == old(store.currentUserRecord))
      ensures currentPage == old(currentPage) && analysisData == old(analysisData)
    {
      request := form.BeginSubmit();
      if request.Some? {
        var success: bool;
        match request.value {
          case LoginRequest(username, password) =>
            success := HandleLogin(username, password);
          case RegisterRequest(username, password, email) =>
            success := HandleRegister(username, password, email);
            if success {
              WithCredAccepts(old(store.StoredUsers()), username, password, email, username, password);
            }
        }
        form.FinishSubmit(if success then Succeeded else Failed);
      }
    }

    /** An analysis on the model page, handed over through onAnalysisComplete. */
    method AnalyzeOnModelPage(page: ModelPageState, d: ProfileDraws, profileNow: real, predictionNow: real, draw: real)
      returns (completed: Option<Analysis>)
      requires ValidDraws(d) && IsDraw(draw)
      modifies this, page
      ensures !old(page.CanAnalyze()) ==>
        completed == None && currentPage == old(currentPage) && analysisData == old(analysisData)
      ensures old(page.CanAnalyze()) ==>
        var profile := GenerateMockProfile(old(page.AnalysisUsername()), d, profileNow);
        var prediction := PredictionOf(profile, predictionNow, draw);
        && completed == Some(Analysis(profile, prediction))
        && currentPage == InterpretabilityPageName
        && analysisData == AnalysisData(Some(profile), Some(prediction))
        && (user.Some? ==> CurrentScreen() == InterpretabilityScreen(Report(profile, prediction)))
        && page.result == completed && !page.loading
      ensures !old(page.CanAnalyze()) ==> page.loading == old(page.loading) && page.result == old(page.result)
      ensures page.inputType == old(page.inputType) && page.twitterUrl == old(page.twitterUrl) && page.file == old(page.file)
      ensures user == old(user)
    {
      completed := page.HandleAnalyze(d, profileNow, predictionNow, draw);
      if completed.Some? {
        HandleAnalysisComplete(completed.value.profile, completed.value.prediction);
      }
    }
  }
}
