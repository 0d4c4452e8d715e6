/**
 * The sign-in / sign-up panel (src/components/AuthModal.tsx): its form
 * fields, the searchable country-code picker, the reset when the panel
 * closes, and the submit handler that calls into the session context.
 */
module AuthForm {
  import opened Wrappers
  import opened Text
  import Js
  import opened Storefront
  import opened Auth

  // ---------------------------------------------------------------------------
  // words of a country name: `name.split(/[\s/]+/)`

  /** A character of the class `[\s/]`. */
  predicate IsSep(c: char)
  {
    IsSpace(c) || c == '/'
  }

  predicate NoSep(s: string)
  {
    forall k :: 0 <= k < |s| ==> !IsSep(s[k])
  }

  /** The longest prefix of `s` without a separator. */
  function LeadingWord(s: string): (w: string)
    ensures |w| <= |s| && w == s[..|w|]
    ensures NoSep(w)
    ensures |w| < |s| ==> IsSep(s[|w|])
    decreases |s|
  {
    if |s| == 0 || IsSep(s[0]) then []
    else
      var w := LeadingWord(s[1..]);
      assert [s[0]] + w == s[..|w| + 1];
      [s[0]] + w
  }

  /** The end of the run of separators in `s` that starts at `from`. */
  function SepRunEnd(s: string, from: nat): (j: nat)
    requires from <= |s|
    ensures from <= j <= |s|
    ensures forall k :: from <= k < j ==> IsSep(s[k])
    ensures j < |s| ==> !IsSep(s[j])
    decreases |s| - from
  {
    if from < |s| && IsSep(s[from]) then SepRunEnd(s, from + 1) else from
  }

  /**
   * `s.split(/[\s/]+/)`: the pieces between maximal runs of separators; a
   * leading or trailing run yields an empty first or last piece.
   */
  function Words(s: string): (ws: seq<string>)
    ensures |ws| >= 1
    ensures forall k :: 0 <= k < |ws| ==> NoSep(ws[k])
    decreases |s|
  {
    var w := LeadingWord(s);
    if |w| == |s| then [w]
    else [w] + Words(s[SepRunEnd(s, |w| + 1)..])
  }

  /** `words.some(word => word.startsWith(q))`. */
  predicate SomeWordStartsWith(ws: seq<string>, q: string)
  {
    exists k :: 0 <= k < |ws| && StartsWith(ws[k], q)
  }

  /** `q` occurs in `s` at `i`, and `i` is the start of `s` or follows a separator. */
  predicate WordStartMatch(s: string, q: string, i: int)
  {
    OccursAt(s, q, i) && (i == 0 || IsSep(s[i - 1]))
  }

  /** For a query without separators, the leading word starts with it exactly when `s` does. */
  lemma LeadingWordStartsWith(s: string, q: string)
    requires NoSep(q)
    ensures StartsWith(LeadingWord(s), q) <==> StartsWith(s, q)
  {
    var w := LeadingWord(s);
    if StartsWith(s, q) && |q| <= |w| {
      assert w[..|q|] == s[..|q|];
    }
  }

  /** The characters of the leading word are not separators. */
  lemma LeadingWordChars(s: string)
    ensures forall k :: 0 <= k < |LeadingWord(s)| ==> !IsSep(s[k])
  {
    var w := LeadingWord(s);
    forall k | 0 <= k < |w| ensures !IsSep(s[k]) {
      assert s[k] == w[k];
    }
  }

  /**
   * When `s` holds a separator, its words are the leading word followed by
   * the words of the text from position `j`, where the run of separators
   * after the leading word ends.
   */
  lemma WordsUnfold(s: string) returns (j: nat)
    requires |LeadingWord(s)| < |s|
    ensures |LeadingWord(s)| < j <= |s|
    ensures Words(s) == [LeadingWord(s)] + Words(s[j..])
    ensures forall k :: |LeadingWord(s)| <= k < j ==> IsSep(s[k])
  {
    j := SepRunEnd(s, |LeadingWord(s)| + 1);
  }

  /** A word start in the tail `s[j..]` is a word start in `s` when `s[j - 1]` is a separator. */
  lemma MatchInTail(s: string, q: string, j: int, i: int)
    requires 0 < j <= |s| && IsSep(s[j - 1]) && 0 <= i <= |s| - j
    ensures WordStartMatch(s[j..], q, i) <==> WordStartMatch(s, q, j + i)
  {
    assert s[j + i..] == s[j..][i..];
    if i > 0 {
      assert s[j + i - 1] == s[j..][i - 1];
    }
  }

  lemma {:induction false} WordMatchGivesStart(s: string, q: string, k: int)
    requires q != [] && NoSep(q)
    requires 0 <= k < |Words(s)| && StartsWith(Words(s)[k], q)
    ensures exists i :: WordStartMatch(s, q, i)
    decreases |s|
  {
    var w := LeadingWord(s);
    assert Words(s)[0] == w;
    if k == 0 {
      LeadingWordStartsWith(s, q);
      assert s[0..] == s;
      assert WordStartMatch(s, q, 0);
    } else {
      assert |w| == |s| ==> |Words(s)| == 1;
      var j := WordsUnfold(s);
      assert Words(s[j..])[k - 1] == Words(s)[k];
      WordMatchGivesStart(s[j..], q, k - 1);
      var i :| WordStartMatch(s[j..], q, i);
      MatchInTail(s, q, j, i);
      assert WordStartMatch(s, q, j + i);
    }
  }

  /** A query that occurs at the start of `s` is a prefix of the first word. */
  lemma FirstWordMatch(s: string, q: string)
    requires NoSep(q) && OccursAt(s, q, 0)
    ensures StartsWith(Words(s)[0], q)
  {
    assert s[..|q|] == s[0..|q|];
    LeadingWordStartsWith(s, q);
  }

  /** A word start after position 0 lies in the text that follows the leading word and its separators. */
  lemma StartPastLeadingWord(s: string, q: string, i: int) returns (j: nat)
    requires q != [] && NoSep(q)
    requires WordStartMatch(s, q, i) && i > 0
    ensures |LeadingWord(s)| < j <= i
    ensures Words(s) == [LeadingWord(s)] + Words(s[j..])
    ensures WordStartMatch(s[j..], q, i - j)
  {
    WordStartPastLeadingWord(s, q, i);
    j := WordsUnfold(s);
    assert j <= i;
    assert IsSep(s[j - 1]);
    MatchInTail(s, q, j, i - j);
  }

  /** A word start after position 0 follows the leading word, and holds no separator. */
  lemma WordStartPastLeadingWord(s: string, q: string, i: int)
    requires q != [] && NoSep(q)
    requires WordStartMatch(s, q, i) && i > 0
    ensures |LeadingWord(s)| < i < |s| && !IsSep(s[i])
  {
    LeadingWordChars(s);
    assert s[i] == s[i..i + |q|][0] == q[0];
  }

  /** A word of the tail is a word of the whole list. */
  lemma SomeWordOfTail(w: string, tail: seq<string>, q: string)
    requires SomeWordStartsWith(tail, q)
    ensures SomeWordStartsWith([w] + tail, q)
  {
    var k :| 0 <= k < |tail| && StartsWith(tail[k], q);
    assert ([w] + tail)[k + 1] == tail[k];
  }

  lemma {:induction false} StartGivesWordMatch(s: string, q: string, i: int)
    requires q != [] && NoSep(q)
    requires WordStartMatch(s, q, i)
    ensures SomeWordStartsWith(Words(s), q)
    decreases |s|
  {
    if i == 0 {
      FirstWordMatch(s, q);
      assert StartsWith(Words(s)[0], q);
    } else {
      var j := StartPastLeadingWord(s, q, i);
      StartGivesWordMatch(s[j..], q, i - j);
      SomeWordOfTail(LeadingWord(s), Words(s[j..]), q);
    }
  }

  /**
   * A query without separators matches some word of `s` exactly when it
   * occurs in `s` at the start of `s` or right after a separator.
   */
  lemma NameMatchIffWordStart(s: string, q: string)
    requires q != [] && NoSep(q)
    ensures SomeWordStartsWith(Words(s), q) <==> exists i :: WordStartMatch(s, q, i)
  {
    if SomeWordStartsWith(Words(s), q) {
      var k :| 0 <= k < |Words(s)| && StartsWith(Words(s)[k], q);
      WordMatchGivesStart(s, q, k);
    }
    if exists i :: WordStartMatch(s, q, i) {
      var i :| WordStartMatch(s, q, i);
      StartGivesWordMatch(s, q, i);
    }
  }

  /** A query holding a space or `/` matches no word: words never contain one. */
  lemma QueryWithSeparatorMatchesNoWord(s: string, q: string, p: int)
    requires 0 <= p < |q| && IsSep(q[p])
    ensures !SomeWordStartsWith(Words(s), q)
  {
  }

  // ---------------------------------------------------------------------------
  // the country-code picker

  datatype CountryEntry = CountryEntry(code: string, country: string)

  /** `countrySearchQuery.toLowerCase().trim()`. */
  function SearchQuery(raw: string): (q: string)
    ensures q == [] || (!IsSpace(q[0]) && !IsSpace(q[|q| - 1]))
  {
    TrimBoundaries(ToLower(raw));
    Trim(ToLower(raw))
  }

  /** Whether the picker lists `e` for the raw search text `raw`. */
  predicate Keeps(e: CountryEntry, raw: string)
  {
    || raw == ""
    || SomeWordStartsWith(Words(ToLower(e.country)), SearchQuery(raw))
    || Includes(ToLower(e.code), SearchQuery(raw))
  }

  /** `filteredCountries`: the entries of `table` the picker lists, in table order. */
  function FilterCountries(table: seq<CountryEntry>, raw: string): (shown: seq<CountryEntry>)
    ensures |shown| <= |table|
    ensures forall e :: e in shown <==> e in table && Keeps(e, raw)
    ensures raw == "" ==> shown == table
  {
    if table == [] then []
    else (if Keeps(table[0], raw) then [table[0]] else []) + FilterCountries(table[1..], raw)
  }

  /** Filtering keeps the table's order: it distributes over concatenation. */
  lemma {:induction false} FilterAppend(a: seq<CountryEntry>, b: seq<CountryEntry>, raw: string)
    ensures FilterCountries(a + b, raw) == FilterCountries(a, raw) + FilterCountries(b, raw)
  {
    if a == [] {
      assert a + b == b;
    } else {
      assert (a + b)[0] == a[0];
      assert (a + b)[1..] == a[1..] + b;
      FilterAppend(a[1..], b, raw);
    }
  }

  /** A search text made only of white space lists every country. */
  lemma BlankQueryKeepsAll(table: seq<CountryEntry>, raw: string)
    requires AllSpace(raw)
    ensures FilterCountries(table, raw) == table
  {
    BlankSearchIsEmpty(raw);
    EmptySearchKeepsAll(table, raw);
  }

  /** White space lower-cases to white space, which the search trims away. */
  lemma BlankSearchIsEmpty(raw: string)
    requires AllSpace(raw)
    ensures SearchQuery(raw) == []
  {
    assert AllSpace(ToLower(raw)) by {
      forall k | 0 <= k < |raw| ensures IsSpace(ToLower(raw)[k]) {
        assert IsSpace(raw[k]);
      }
    }
    TrimEmptyIffAllSpace(ToLower(raw));
  }

  lemma {:induction false} EmptySearchKeepsAll(table: seq<CountryEntry>, raw: string)
    requires SearchQuery(raw) == []
    ensures FilterCountries(table, raw) == table
  {
    if table != [] {
      assert StartsWith(Words(ToLower(table[0].country))[0], []);
      EmptySearchKeepsAll(table[1..], raw);
    }
  }

  /**
   * For a non-empty single-word search, a country is listed exactly when the
   * search text occurs at the start of a word of its lower-cased name or
   * anywhere in its lower-cased code.
   */
  lemma SingleWordSearch(e: CountryEntry, raw: string)
    requires raw != "" && SearchQuery(raw) != [] && NoSep(SearchQuery(raw))
    ensures Keeps(e, raw) <==>
      (exists i :: WordStartMatch(ToLower(e.country), SearchQuery(raw), i))
      || (exists i :: OccursAt(ToLower(e.code), SearchQuery(raw), i))
  {
    NameMatchIffWordStart(ToLower(e.country), SearchQuery(raw));
    IncludesIffOccurs(ToLower(e.code), SearchQuery(raw));
  }

  /**
   * A search text with a space or `/` inside matches no country name, so such
   * a search lists only the entries whose code contains it.
   */
  lemma MultiWordSearchMatchesCodesOnly(e: CountryEntry, raw: string, p: int)
    requires raw != "" && 0 <= p < |SearchQuery(raw)| && IsSep(SearchQuery(raw)[p])
    ensures Keeps(e, raw) <==> Includes(ToLower(e.code), SearchQuery(raw))
  {
    QueryWithSeparatorMatchesNoWord(ToLower(e.country), SearchQuery(raw), p);
  }

  // ---------------------------------------------------------------------------
  // the form

  datatype Mode = Login | Signup

  datatype FormState = FormState(
    mode: Mode,
    email: string,
    password: string,
    firstName: string,
    lastName: string,
    countryCode: string,
    phone: string,
    isCountryDropdownOpen: bool,
    countrySearchQuery: string,
    rememberMe: bool,
    acceptsEmailMarketing: bool,
    error: string,
    isSubmitting: bool)

  const DefaultCountryCode: string := "+91"
  const FirstNameRequired: string := "First name is required"

  /** The state the panel mounts with, and returns to whenever it closes. */
  const InitialForm: FormState :=
    FormState(Login, "", "", "", "", DefaultCountryCode, "", false, "", false, true, "", false)

  /** `switchMode()`: the other mode, and no error. */
  function SwitchedMode(f: FormState): (g: FormState)
    ensures g.mode != f.mode && g.error == ""
    ensures g.(mode := f.mode, error := f.error) == f
  {
    f.(mode := if f.mode == Login then Signup else Login, error := "")
  }

  /** Switching twice returns to the same mode with the error cleared. */
  lemma SwitchModeTwice(f: FormState)
    ensures SwitchedMode(SwitchedMode(f)) == f.(error := "")
  {
  }

  /** Picking an entry: its code becomes the prefix; the picker closes and forgets the search. */
  function CountrySelected(f: FormState, e: CountryEntry): (g: FormState)
    ensures g.countryCode == e.code && !g.isCountryDropdownOpen && g.countrySearchQuery == ""
    ensures g.(countryCode := f.countryCode, isCountryDropdownOpen := f.isCountryDropdownOpen,
               countrySearchQuery := f.countrySearchQuery) == f
  {
    f.(countryCode := e.code, isCountryDropdownOpen := false, countrySearchQuery := "")
  }

  /** A click outside the open picker closes it and forgets the search. */
  function ClickOutside(f: FormState): (g: FormState)
    ensures f.isCountryDropdownOpen ==> g == f.(isCountryDropdownOpen := false, countrySearchQuery := "")
    ensures !f.isCountryDropdownOpen ==> g == f
  {
    if f.isCountryDropdownOpen then f.(isCountryDropdownOpen := false, countrySearchQuery := "") else f
  }

  /** `phone ? `${countryCode}${phone}` : ''`. */
  function FullPhone(f: FormState): (p: string)
    ensures f.phone == "" ==> p == ""
    ensures f.phone != "" ==> p == f.countryCode + f.phone && p[|f.countryCode|..] == f.phone
  {
    if f.phone != "" then f.countryCode + f.phone else ""
  }

  /** The five arguments `signup` receives. */
  datatype SignupCall = SignupCall(email: string, password: string, firstName: Js.Value, lastName: Js.Value,
                                   acceptsEmailMarketing: Js.Value)

  /** The `customerCreate` input a signup call leads to. */
  function InputFor(c: SignupCall): CustomerCreateInput
  {
    AccountInput(c.email, c.password, c.firstName, c.lastName, c.acceptsEmailMarketing)
  }

  /**
   * The arguments as the handler passes them: six values go to a five-parameter
   * `signup`, so its marketing parameter receives the full phone text and the
   * checkbox value is dropped.
   */
  function SignupArgsAsWritten(f: FormState): (c: SignupCall)
    ensures c.acceptsEmailMarketing == Js.Str(FullPhone(f))
  {
    SignupCall(f.email, f.password, Js.Str(f.firstName), Js.Str(f.lastName), Js.Str(FullPhone(f)))
  }

  /** As written, a ticked checkbox with no phone number subscribes nobody. */
  lemma AsWrittenTickedBoxIgnored(f: FormState)
    requires f.acceptsEmailMarketing && f.phone == ""
    ensures InputFor(SignupArgsAsWritten(f)).acceptsMarketing == Js.Bool(false)
  {
  }

  /** As written, any phone number is sent as the marketing flag, a text where the store expects a boolean. */
  lemma AsWrittenPhoneSentAsFlag(f: FormState)
    requires f.phone != ""
    ensures InputFor(SignupArgsAsWritten(f)).acceptsMarketing == Js.Str(f.countryCode + f.phone)
  {
  }

  /** The arguments with the checkbox value in the marketing position. */
  function SignupArgs(f: FormState): (c: SignupCall)
    ensures c.email == f.email && c.password == f.password
    ensures c.firstName == Js.Str(f.firstName) && c.lastName == Js.Str(f.lastName)
    ensures c.acceptsEmailMarketing == Js.Bool(f.acceptsEmailMarketing)
  {
    SignupCall(f.email, f.password, Js.Str(f.firstName), Js.Str(f.lastName), Js.Bool(f.acceptsEmailMarketing))
  }

  /** With the checkbox in place, the store is sent exactly the subscriber's choice. */
  lemma MarketingChoiceReachesStore(f: FormState)
    ensures InputFor(SignupArgs(f)).acceptsMarketing == Js.Bool(f.acceptsEmailMarketing)
  {
    BooleanMarketingStaysBoolean(f.email, f.password, Js.Str(f.firstName), Js.Str(f.lastName),
                                 Js.Bool(f.acceptsEmailMarketing));
  }

  /** What a submit does. */
  datatype SubmitAction =
    | DoLogin(email: string, password: string, rememberMe: bool)
    | DoSignup(call: SignupCall)
    | Reject(message: string)

  /** `handleSubmit`'s choice: log in, refuse a signup without a first name, or sign up. */
  function Plan(f: FormState): (a: SubmitAction)
    ensures f.mode == Login <==> a.DoLogin?
    ensures a.DoLogin? ==> a == DoLogin(f.email, f.password, f.rememberMe)
    ensures a.Reject? <==> f.mode.Signup? && f.firstName == ""
    ensures a.Reject? ==> a.message == FirstNameRequired
    ensures a.DoSignup? ==> a.call == SignupArgs(f) && Js.Truthy(a.call.firstName)
  {
    if f.mode == Login then DoLogin(f.email, f.password, f.rememberMe)
    else if f.firstName == "" then Reject(FirstNameRequired)
    else DoSignup(SignupArgs(f))
  }

  /**
   * The form after the submit settles: a refusal or a thrown error is shown
   * and re-enables the button; a success leaves the button disabled until
   * the panel closes.
   */
  function Settle(f: FormState, a: SubmitAction, err: Option<string>): (g: FormState)
    ensures a.Reject? ==> g == f.(error := a.message, isSubmitting := false)
    ensures !a.Reject? && err.Some? ==> g == f.(error := err.value, isSubmitting := false)
    ensures !a.Reject? && err.None? ==> g == f.(error := "", isSubmitting := true)
  {
    if a.Reject? then f.(error := a.message, isSubmitting := false)
    else match err
      case Some(m) => f.(error := m, isSubmitting := false)
      case None => f.(error := "", isSubmitting := true)
  }

  /**
   * The form after the session's panel flag changes: when the panel closes,
   * every field returns to its mount value, in login mode with nothing typed
   * and the button enabled; while it is open the form is left alone.
   */
  function AfterPanelFlag(isOpen: bool, f: FormState): (g: FormState)
    ensures isOpen ==> g == f
    ensures !isOpen ==> g == InitialForm
    ensures !isOpen ==> g.mode.Login? && g.email == "" && g.password == "" && g.error == "" && !g.isSubmitting
  {
    if isOpen then f else InitialForm
  }

  /**
   * A login or signup that succeeds leaves the button disabled, signs in and
   * closes the panel, and the reset that the closing triggers returns the
   * form to its mount state.
   */
  lemma SuccessClosesAndResets(s: Session, f: FormState, created: Option<CreatedCustomer>, response: LoginResult)
    requires !Plan(f).Reject?
    ensures var a := Plan(f);
      var next := if a.DoLogin? then LoginStep(s, a.email, a.rememberMe, Success(response))
                  else SignupStep(s, a.call.email, a.call.firstName, a.call.lastName, Success(created), Success(response));
      var settled := Settle(f, a, None);
      && settled.isSubmitting
      && next.state.isAuthenticated && !next.state.isAuthModalOpen
      && AfterPanelFlag(next.state.isAuthModalOpen, settled) == InitialForm
  {
  }

  /** The panel's state holder. */
  class AuthPanel {
    var form: FormState

    constructor ()
      ensures form == InitialForm
    {
      form := InitialForm;
    }

    /** The effect that runs when the session's panel flag changes; closing resets the form. */
    method PanelFlagChanged(isOpen: bool)
      modifies this
      ensures form == AfterPanelFlag(isOpen, old(form))
    {
      if !isOpen {
        form := InitialForm;
      }
    }

    method SwitchMode()
      modifies this
      ensures form == SwitchedMode(old(form))
    {
      form := form.(mode := if form.mode == Login then Signup else Login, error := "");
    }

    method SelectCountry(e: CountryEntry)
      modifies this
      ensures form == CountrySelected(old(form), e)
    {
      form := form.(countryCode := e.code, isCountryDropdownOpen := false, countrySearchQuery := "");
    }

    /** `handleSubmit`: runs the planned call against the session context and settles the form. */
    method HandleSubmit(auth: AuthStore, api: StorefrontApi,
                        createNet: Request<CustomerCreateInput> -> HttpResponse<CreateBody>,
                        tokenNet: Request<LoginInput> -> HttpResponse<TokenBody>,
                        profileNet: Request<string> -> HttpResponse<ProfileBody>,
                        storage: BrowserStorage)
      modifies this, auth, storage
      ensures var a := Plan(old(form));
        && (a.Reject? ==>
              && form == Settle(old(form), a, None)
              && auth.state == old(auth.state) && storage.entries == old(storage.entries))
        && (a.DoLogin? ==>
              var r := api.CustomerLogin(a.email, a.password, tokenNet, profileNet);
              && Session(auth.state, storage.entries)
                 == LoginStep(Session(old(auth.state), old(storage.entries)), a.email, a.rememberMe, r)
              && form == Settle(old(form), a, Thrown(r)))
        && (a.DoSignup? ==>
              var c := a.call;
              var created := api.CreateCustomerAccount(c.email, c.password, c.firstName, c.lastName,
                                                       c.acceptsEmailMarketing, createNet);
              var login := api.CustomerLogin(c.email, c.password, tokenNet, profileNet);
              && Session(auth.state, storage.entries)
                 == SignupStep(Session(old(auth.state), old(storage.entries)), c.email, c.firstName, c.lastName, created, login)
              && form == Settle(old(form), a, if created.Failure? then Thrown(created) else Thrown(login)))
    {
      var a := Plan(form);
      form := form.(error := "", isSubmitting := true);
      match a
      case Reject(m) =>
        form := form.(error := m, isSubmitting := false);
      case DoLogin(email, password, rememberMe) =>
        var err := auth.Login(api, email, password, rememberMe, tokenNet, profileNet, storage);
        if err.Some? {
          form := form.(error := err.value, isSubmitting := false);
        }
      case DoSignup(c) =>
        var err := auth.Signup(api, c.email, c.password, c.firstName, c.lastName, c.acceptsEmailMarketing,
                               createNet, tokenNet, profileNet, storage);
        if err.Some? {
          form := form.(error := err.value, isSubmitting := false);
        }
    }
  }
}
