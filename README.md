# gyji — a Dafny model of the app's logic

gyji is a React Native app for home brewers of Korean traditional alcohol:
recipes, brewing journals, tasting events, and sign-in with Google or Kakao
through Supabase. Most of the app is layout. This project models the parts
that hold logic:

- the recipe editor: ingredient and step lists, the validation chain, and
  how the save payload is built and sent;
- the authentication context: its `(user, session, isLoading)` state, the
  refresh, the two sign-ins and sign-out;
- the credentials read from the OAuth redirect URL, and the two sign-in
  flows of `lib/supabase.ts`;
- the login screen: its own loading marker, its button rule and its
  redirect;
- small handlers of other screens:
  - the settings switch;
  - the date and time labels and the start/end routing of the event form;
  - the journal screen's colour and stage lookups;
  - the adult-verification check boxes and phone-length guard;
  - the register button rule.

Every screen, context and helper file has its own Dafny module. Three
modules are shared:

- `Wrappers`: optional values, and the two ways an outside call can end.
  A promise resolves or throws. A Supabase `{ data, error }` reply carries
  data, or an error, or the call throws.
- `JsText`: the JavaScript string operations the code relies on (`trim`,
  `indexOf`/`includes`, `split`, `String(n)`, `padStart`), with their
  ECMAScript behaviour written out.
- `IdLists`: filtering and mapping lists of records by their string id.

Code that changes state step by step is a class with `modifies` clauses:

- `AuthContext.AuthProvider`;
- `Login.LoginScreen`;
- `RecipeCreate.CreateRecipeScreen`;
- the modal state and ref table of `IngredientsForm.FormState`;
- `Settings.SettingsScreen` with its `Setting` objects, which are changed
  in place;
- `EventCreate.EventForm`.

Each of these methods is specified by a function of the old state, and the
properties are proved about that function. Code that is pure becomes
functions and lemmas.

Outside calls are parameters of the methods that make them. These are the
Supabase client, the browser, AsyncStorage, the image picker and the clock.
Each is passed in as the value the call resolved with or the way it failed.

## Model

| member | source | states |
|---|---|---|
| `JsText.SkipSpace` | app/recipes/create.tsx:116 | the first position from `i` on that holds no whitespace, with only whitespace before it |
| `JsText.SkipSpaceBack` | app/recipes/create.tsx:116 | the end of the text once the whitespace before `j` is dropped, with only whitespace after it |
| `JsText.TrimStart` | app/recipes/create.tsx:116 | the result is the suffix of the input that starts at its first non-whitespace character, and everything dropped is whitespace |
| `JsText.TrimEnd` | app/recipes/create.tsx:116 | the result is the prefix that ends at the last non-whitespace character, and everything dropped is whitespace |
| `JsText.Trim` | app/recipes/create.tsx:116 | the trimmed text is empty or starts and ends with a non-whitespace character |
| `JsText.TrimEmptyIffBlank` | app/recipes/create.tsx:116 | `!s.trim()` holds exactly when `s` consists of whitespace only |
| `JsText.IndexOfFrom` | lib/supabase.ts:95 | the first position at or after `k` where the separator occurs, or none when it occurs nowhere from `k` on |
| `JsText.IncludesIffOccurs` | lib/supabase.ts:95 | `includes` holds exactly when the separator occurs somewhere |
| `JsText.Split` | lib/supabase.ts:53 | `split` yields at least one piece, and two or more exactly when the separator occurs |
| `JsText.SplitHead` | lib/supabase.ts:53 | the first piece is the text before the first occurrence (all of it when there is none) and holds no occurrence |
| `JsText.SplitHeadBound` | lib/supabase.ts:53 | the first piece is a separator-free prefix, followed by the end of the text or by the separator |
| `JsText.SplitSecond` | lib/supabase.ts:53 | the second piece is the first piece of what follows the first occurrence |
| `JsText.FreePrefix` | lib/supabase.ts:53 | a prefix of a text free of the separator is free of it too |
| `JsText.OccursInSuffix` | lib/supabase.ts:53 | an occurrence inside a suffix is an occurrence in the whole text |
| `JsText.FreeOfChar` | lib/supabase.ts:53 | a text free of the one-character separator `&` does not contain `&` |
| `JsText.Decimal` | components/recipe/IngredientsForm.tsx:45 | `String(n)` of a natural number is a non-empty string of digits |
| `JsText.DecimalRoundTrip` | components/recipe/IngredientsForm.tsx:45 | reading the digits of `String(n)` back gives `n` |
| `JsText.DecimalInjective` | components/recipe/StepsForm.tsx:65 | different numbers have different decimal notations |
| `JsText.NumberToString` | app/events/create.tsx:43-45 | `String(n)` of an integer: a minus sign before the digits of a negative number |
| `JsText.Repeat` | app/events/create.tsx:50 | `k` copies of a character |
| `JsText.PadStart` | app/events/create.tsx:50-53 | `padStart` reaches the width when the text is shorter, keeps the text as its suffix, and fills in front with the pad character |
| `IdLists.Ids` | components/recipe/IngredientsForm.tsx:45 | the ids of a list, position by position |
| `IdLists.CountId` | components/recipe/IngredientsForm.tsx:55 | how many rows carry an id, at most the list's length |
| `IdLists.Without` | components/recipe/IngredientsForm.tsx:55 | `filter` by id keeps exactly the rows whose id differs, and its length drops by the number of rows carrying the id |
| `IdLists.WithoutConcat` | components/recipe/IngredientsForm.tsx:55 | filtering distributes over concatenation, so the surviving rows keep their order |
| `IdLists.WithoutUnique` | components/recipe/IngredientsForm.tsx:55 | filtering a list with unique ids leaves the ids unique |
| `IdLists.WithoutAbsent` | components/recipe/IngredientsForm.tsx:55 | filtering by an id no row carries changes nothing |
| `IdLists.CountUnique` | components/recipe/IngredientsForm.tsx:55 | with unique ids an id occurs at most once, and exactly once when some row carries it |
| `IdLists.MapMatching` | components/recipe/IngredientsForm.tsx:66-68 | `map` by id changes exactly the rows whose id matches, and keeps the length |
| `IdLists.MaxIdNumber` | components/recipe/IngredientsForm.tsx:45 | an upper bound of the numeric values of all ids of the list |
| `IdLists.FreshId` | components/recipe/IngredientsForm.tsx:45 | the corrected new id is not among the list's ids |
| `IdLists.Numbered` | components/recipe/IngredientsForm.tsx:45 | the ids "1" … "n" of a list that was only ever appended to |
| `IdLists.FreshIdOnNumbered` | components/recipe/IngredientsForm.tsx:45 | on a list numbered "1" … "n" the corrected id is `String(n + 1)`, the source's own choice |
| `IngredientsForm.ApplyEdit` | components/recipe/IngredientsForm.tsx:67 | `{ ...ing, [field]: value }` sets the named field to the value and leaves every other field alone |
| `IngredientsForm.AddIngredientAsWritten` | components/recipe/IngredientsForm.tsx:44-50 | as written: one blank row (empty name and amount, unit "g", picker mode) with id `String(length + 1)` appended after the unchanged rows |
| `IngredientsForm.AddIngredient` | components/recipe/IngredientsForm.tsx:44-50 | corrected: one blank row appended after the unchanged rows, with an id no row has |
| `IngredientsForm.AddAgreesWhileNumbered` | components/recipe/IngredientsForm.tsx:45 | while rows have only been appended, the corrected add is exactly the source's add |
| `IngredientsForm.AddKeepsIdsUnique` | components/recipe/IngredientsForm.tsx:44-50 | the corrected add keeps the ids unique |
| `IngredientsForm.RemoveIngredient` | components/recipe/IngredientsForm.tsx:53-57 | with one row (or none) nothing changes; with more, exactly the rows whose id differs stay |
| `IngredientsForm.RemoveDisabled` | components/recipe/IngredientsForm.tsx:183 | a row's remove button is disabled exactly while the list has one row; `FormState.TapRemove` changes nothing then |
| `IngredientsForm.RemoveKeepsOrder` | components/recipe/IngredientsForm.tsx:55 | the rows that stay keep their relative order |
| `IngredientsForm.RemoveKeepsOneRow` | components/recipe/IngredientsForm.tsx:54-55 | with unique ids a removal takes out at most one row, never empties the list, and keeps the ids unique |
| `IngredientsForm.AsWrittenRemovalEmptiesList` | components/recipe/IngredientsForm.tsx:45-55 | as written, add, add, remove "1", add gives two rows with id "3", and later removals empty the list despite the length guard |
| `IngredientsForm.AsWrittenAddsDuplicate` | components/recipe/IngredientsForm.tsx:44-50 | as written, the adds of that sequence give a list where two rows carry "3" |
| `IngredientsForm.AsWrittenRemovals` | components/recipe/IngredientsForm.tsx:53-57 | the removals of that sequence drop every row with the id, the last one both rows |
| `IngredientsForm.DropFirst` | components/recipe/IngredientsForm.tsx:55 | removing the first row's id when no later row has it leaves the later rows |
| `IngredientsForm.DropAll` | components/recipe/IngredientsForm.tsx:55 | two rows sharing the id removed both go |
| `IngredientsForm.UpdateIngredient` | components/recipe/IngredientsForm.tsx:60-70 | every matching row gets the value in the named field; length, other fields and other rows are unchanged |
| `IngredientsForm.UpdateKeepsIds` | components/recipe/IngredientsForm.tsx:60-70 | an edit of any field but the id keeps the list's ids |
| `IngredientsForm.SelectUnit` | components/recipe/IngredientsForm.tsx:73-90 | "직접 입력" switches matching rows to typed-in mode with an empty unit; any other entry sets that unit and picker mode; other rows and other fields are unchanged |
| `IngredientsForm.SelectUnitIsTwoEdits` | components/recipe/IngredientsForm.tsx:73-90 | choosing a unit equals two field updates: the mode flag, then the unit text |
| `IngredientsForm.FormState.constructor` | components/recipe/IngredientsForm.tsx:30-41 | the picker is closed, no row is selected, the ref table is empty |
| `IngredientsForm.FormState.TapAdd` | components/recipe/IngredientsForm.tsx:194-197 | the list becomes the corrected add of the old list (a fresh id, see Findings); the modal state and refs are unchanged |
| `IngredientsForm.FormState.TapRemove` | components/recipe/IngredientsForm.tsx:180-184 | the list becomes the removal from the old list, and stays unchanged while the button is disabled (one row) |
| `IngredientsForm.FormState.EditField` | components/recipe/IngredientsForm.tsx:60-70 | the list becomes the update of the old list |
| `IngredientsForm.FormState.OpenUnitModal` | components/recipe/IngredientsForm.tsx:165-168 | the picker opens for that row; the list is unchanged |
| `IngredientsForm.FormState.HandleUnitSelection` | components/recipe/IngredientsForm.tsx:73-93 | the list gets the unit choice, then the picker is closed and no row is selected |
| `IngredientsForm.FormState.TapUnit` | components/recipe/IngredientsForm.tsx:222-226 | an entry tap is handled only when a row is selected, and otherwise changes nothing at all |
| `IngredientsForm.FormState.CloseUnitModal` | components/recipe/IngredientsForm.tsx:232-237 | cancel closes the picker and forgets the row; the list is unchanged |
| `IngredientsForm.FormState.CreateInputRef` | components/recipe/IngredientsForm.tsx:96-101 | a row's ref is created and stored on its first request; a stored ref is returned and never replaced |
| `StepsForm.SetField` | components/recipe/StepsForm.tsx:50 | `{ ...step, [field]: value }` sets the named field and leaves the others alone |
| `StepsForm.AddStepAsWritten` | components/recipe/StepsForm.tsx:35-38 | as written: one blank step with id `String(length + 1)` appended after the unchanged steps |
| `StepsForm.AddStep` | components/recipe/StepsForm.tsx:35-38 | corrected: one blank step appended after the unchanged steps, with an id no step has |
| `StepsForm.AddAgreesWhileNumbered` | components/recipe/StepsForm.tsx:36 | while steps have only been appended, the corrected add is exactly the source's add |
| `StepsForm.AddKeepsIdsUnique` | components/recipe/StepsForm.tsx:35-38 | the corrected add keeps the ids unique |
| `StepsForm.RemoveStep` | components/recipe/StepsForm.tsx:41-45 | with one step (or none) nothing changes; with more, exactly the steps whose id differs stay |
| `StepsForm.RemoveKeepsOrder` | components/recipe/StepsForm.tsx:43 | the steps that stay keep their relative order |
| `StepsForm.RemoveKeepsOneStep` | components/recipe/StepsForm.tsx:42-43 | with unique ids a removal takes out at most one step and never empties the list |
| `StepsForm.AsWrittenRemovalEmptiesList` | components/recipe/StepsForm.tsx:36-43 | as written, two steps can share an id and a later removal empties the list |
| `StepsForm.AsWrittenAddsDuplicate` | components/recipe/StepsForm.tsx:35-38 | as written, the adds of that sequence give a list where two steps carry "3" |
| `StepsForm.AsWrittenRemovals` | components/recipe/StepsForm.tsx:41-45 | the removals of that sequence drop every step with the id, the last one both steps |
| `StepsForm.DropFirst` | components/recipe/StepsForm.tsx:43 | removing the first step's id when no later step has it leaves the later steps |
| `StepsForm.DropAll` | components/recipe/StepsForm.tsx:43 | two steps sharing the id removed both go |
| `StepsForm.UpdateStep` | components/recipe/StepsForm.tsx:48-52 | matching steps get the value in the named field; every other field and step is unchanged |
| `StepsForm.UpdateTwiceLastWins` | components/recipe/StepsForm.tsx:48-52 | two updates of the same non-id field: the later value wins |
| `StepsForm.StepLabelNumber` | components/recipe/StepsForm.tsx:58-65 | the label of position `i` shows the number `i + 1`, so labels of different positions differ |
| `StepsForm.StepLabel` | components/recipe/StepsForm.tsx:65 | the header "단계 " followed by the 1-based position; `StepLabelNumber` states what it means |
| `StepsForm.RemoveDisabled` | components/recipe/StepsForm.tsx:70 | a step's remove button is disabled exactly while the list has one step; `RemoveStep` changes nothing then |
| `RecipeCreate.Validate` | app/recipes/create.tsx:116-144 | the first failing check in the order title, category, ingredients, steps, each case stated as an if-and-only-if; none when all pass |
| `RecipeCreate.ValidateByContent` | app/recipes/create.tsx:116-144 | the title check fails exactly on a whitespace-only title; the form passes exactly when the title, every ingredient name and every step description hold a non-whitespace character and a category is set |
| `RecipeCreate.UserId` | app/recipes/create.tsx:153-154 | the stored token when it is truthy, otherwise "temp-user-id" |
| `RecipeCreate.IngredientPayload` | app/recipes/create.tsx:169-174 | one row per ingredient in list order, with the recipe id and the name, amount and unit |
| `RecipeCreate.IngredientPayloadConcat` | app/recipes/create.tsx:169-174 | the payload of a concatenation is the concatenation of the payloads, so the order follows the list |
| `RecipeCreate.IngredientPayloadDropsIdAndMode` | app/recipes/create.tsx:169-174 | lists that agree on names, amounts and units give the same rows: ids and unit mode are dropped |
| `RecipeCreate.StepPayload` | app/recipes/create.tsx:179-184 | one row per step in list order, with the recipe id, description, days and its 1-based position |
| `RecipeCreate.Orders` | app/recipes/create.tsx:183 | the `order` fields of the step rows, in list order |
| `RecipeCreate.StepOrdersOneToN` | app/recipes/create.tsx:179-184 | the orders are exactly 1 … n in list order, hence increasing |
| `RecipeCreate.StepPayloadAppend` | app/recipes/create.tsx:179-184 | appending a step appends one row numbered one past the others |
| `RecipeCreate.Save` | app/recipes/create.tsx:113-204 | `handleSave` as calls, alert and saving flag: the validation chain first, then the awaited chain; its properties are `SaveValidatesFirst`, `SaveSucceedsIff` and `SaveInsertsAreConsistent` |
| `RecipeCreate.Awaited` | app/recipes/create.tsx:147-200 | the part of `handleSave` after validation: token, recipe insert, ingredient rows, step rows, stopping at the first throw; its properties are `AwaitedInsertsAreConsistent` and `SaveSucceedsIff` |
| `RecipeCreate.SaveValidatesFirst` | app/recipes/create.tsx:113-150 | a form failing validation makes no call, shows only that check's notice and never sets `isSaving`; a valid form reads the token first |
| `RecipeCreate.SaveSucceedsIff` | app/recipes/create.tsx:150-194 | success exactly when the form is valid and every awaited call succeeds and returns a row; the recipe, ingredient and step inserts then run in that order |
| `RecipeCreate.SaveInsertsAreConsistent` | app/recipes/create.tsx:153-186 | the recipe row has the token's user id; ingredient and step rows carry the new recipe's id and are sent only after the recipe insert returned a row |
| `RecipeCreate.AwaitedInsertsAreConsistent` | app/recipes/create.tsx:153-186 | the same facts about the awaited calls alone |
| `RecipeCreate.Persist` | app/recipes/create.tsx:153-200 | the awaited chain makes the calls, and ends with the alert, that `Awaited` describes: token, recipe, ingredients, steps, stopping at the first throw |
| `RecipeCreate.PerformSave` | app/recipes/create.tsx:113-200 | the checks with their early return, then the awaited chain, give the run `Save` describes |
| `RecipeCreate.CreateRecipeScreen.constructor` | app/recipes/create.tsx:54-66 | empty title and description, category "막걸리", public, not saving, one blank ingredient and one blank step with id "1" |
| `RecipeCreate.CreateRecipeScreen.HandleSave` | app/recipes/create.tsx:113-204 | calls and alert as `Save` says; `isSaving` is false afterwards on every path; the form is unchanged |
| `Supabase.ParamValue` | lib/supabase.ts:53-54 | the value is missing (the expression throws) exactly when the key does not occur |
| `Supabase.ParamValueSpec` | lib/supabase.ts:53-54 | the value is the text right after the first key, running to the first `&`, the next key or the end; it contains neither `&` nor the key |
| `Supabase.ParamValueFreeOfAmp` | lib/supabase.ts:53-54 | a value found in the URL holds no `&` |
| `Supabase.KakaoCode` | lib/supabase.ts:95-97 | no code exactly when the URL lacks "code="; a code never contains `&` |
| `Supabase.ReplyFailure` | lib/supabase.ts:62 | a reply without data fails as an SDK error exactly when it carried an `error` |
| `Supabase.GetCurrentSession` | lib/supabase.ts:127-131 | the reply's session when it carried data, otherwise a throw |
| `Supabase.GetCurrentUser` | lib/supabase.ts:134-138 | the reply's user when it carried data, otherwise a throw |
| `Supabase.SignOut` | lib/supabase.ts:121-124 | resolves exactly when the client's sign-out reported no error |
| `Supabase.AuthUrl` | lib/supabase.ts:41-42 | the flow goes on exactly when the start reported no error and returned a truthy URL; otherwise it throws the error or "No auth URL" |
| `Supabase.GoogleFlow` | lib/supabase.ts:30-69 | the Google sign-in as calls and outcome: the OAuth start, the browser, `setSession` only after a redirect carrying both tokens, and the closing `getSession`; its properties are the Flows and Google lemmas below |
| `Supabase.KakaoFlow` | lib/supabase.ts:72-118 | the Kakao sign-in as calls and outcome: the OAuth start, the browser, the code exchange only for a truthy code, and the closing `getSession`; its properties are the Flows and Kakao lemmas below |
| `Supabase.SignInWithGoogle` | lib/supabase.ts:30-69 | the step-by-step Google flow makes the calls and ends with the outcome `GoogleFlow` describes |
| `Supabase.SignInWithKakao` | lib/supabase.ts:72-118 | the step-by-step Kakao flow makes the calls and ends with the outcome `KakaoFlow` describes |
| `Supabase.FlowsStopBeforeBrowser` | lib/supabase.ts:41-42 | a start error or a missing auth URL throws before the browser opens, in both flows |
| `Supabase.GoogleSetsSessionIff` | lib/supabase.ts:48-56 | a session is set exactly after a redirect whose URL carries both tokens, and with the extracted tokens; a URL lacking a token throws before any session is read |
| `Supabase.KakaoExchangesIff` | lib/supabase.ts:90-104 | the code is exchanged exactly after a redirect with a non-empty code, and it is that code; a failed exchange throws before the session is read |
| `Supabase.FlowsResolveWithSession` | lib/supabase.ts:30-118 | a flow resolves exactly when it reached `getSession` and that call had data, and then with that session; without a redirect it goes straight to `getSession` |
| `Supabase.GoogleResolvesWithSession` | lib/supabase.ts:48-64 | the Google flow resolves exactly when it read a session reply with data, and then with that session |
| `Supabase.KakaoResolvesWithSession` | lib/supabase.ts:99-114 | the Kakao flow resolves exactly when it read a session reply with data, and then with that session; without a redirect it goes straight to `getSession` |
| `AuthContext.Refresh` | contexts/AuthContext.tsx:42-64 | the states a refresh shows begin with the loading state, and there are two or three of them |
| `AuthContext.SignIn` | contexts/AuthContext.tsx:72-89 | the states a sign-in shows begin with the loading state |
| `AuthContext.SignOutStates` | contexts/AuthContext.tsx:112-124 | sign-out shows the loading state, then its final state |
| `AuthContext.RefreshFailsClosed` | contexts/AuthContext.tsx:42-64 | after a refresh nothing loads; session and user are the backend's, the user looked up only for a session; any throw signs out; authenticated exactly when both lookups succeeded with a session |
| `AuthContext.RefreshShowsSessionBeforeUser` | contexts/AuthContext.tsx:47-53 | while the user lookup is pending the state already holds the new session with the previous user |
| `AuthContext.SignInOutcome` | contexts/AuthContext.tsx:72-109 | a throwing provider flow skips the refresh and keeps user and session; otherwise the sign-in ends as the refresh does; nothing loads at the end |
| `AuthContext.SignOutClearsOnlyOnSuccess` | contexts/AuthContext.tsx:112-124 | user and session are cleared only when the remote sign-out succeeded, and kept when it failed; nothing loads at the end |
| `AuthContext.MountWithoutSession` | contexts/AuthContext.tsx:37-39 | the initial state is signed out and loading; the mount refresh without a stored session leaves it signed out and not loading |
| `AuthContext.IsAuthenticated` | contexts/AuthContext.tsx:132 | `!!session`: authenticated exactly when a session is held; `Login.LoginScreen.OnAuthChange` redirects on it |
| `AuthContext.AuthProvider.constructor` | contexts/AuthContext.tsx:37-39 | no user, no session, loading |
| `AuthContext.AuthProvider.RefreshSession` | contexts/AuthContext.tsx:42-64 | the step-by-step refresh shows the states `Refresh` lists and ends in the last of them |
| `AuthContext.AuthProvider.SignInWithGoogleAuth` | contexts/AuthContext.tsx:72-89 | the Google sign-in ends as `SignIn` says for the Google flow's outcome, and rethrows exactly when that flow threw |
| `AuthContext.AuthProvider.SignInWithKakaoAuth` | contexts/AuthContext.tsx:92-109 | the Kakao sign-in ends as `SignIn` says for the Kakao flow's outcome, and rethrows exactly when that flow threw |
| `AuthContext.AuthProvider.SignOutUser` | contexts/AuthContext.tsx:112-124 | sign-out ends as `SignOutStates` says and rethrows exactly when the remote call failed |
| `Login.Render` | app/login.tsx:107-164 | a spinner exactly while the context loads; otherwise both buttons are enabled exactly when no handler runs, and a button shows "처리 중..." exactly while its own provider's handler runs |
| `Login.ButtonsDisabled` | app/login.tsx:128 | `isLoading \|\| localLoading !== null`, shared by both buttons; `Render`, `NoSecondSignIn` and `Press` are stated with it |
| `Login.NoSecondSignIn` | app/login.tsx:128-152 | while a handler runs, no sign-in button is enabled |
| `Login.LoginScreen.constructor` | app/login.tsx:28 | no handler running, no alerts, no navigation |
| `Login.LoginScreen.HandleLogin` | app/login.tsx:38-71 | the marker is set to the provider and cleared on every exit; a failed sign-in becomes one alert and is not rethrown; the context ends as `SignIn` says |
| `Login.LoginScreen.Press` | app/login.tsx:127-152 | a press while the buttons are disabled changes nothing; otherwise the handler runs: the marker is set and cleared, a failed flow adds exactly one `SignInFailed` alert, and the context ends as `SignIn` says |
| `Login.LoginScreen.OnAuthChange` | app/login.tsx:31-35 | an authenticated context replaces the screen with "/(tabs)"; otherwise nothing happens |
| `Settings.Toggled` | app/profile/settings.tsx:172-174 | a switch with a value is negated; any other setting keeps its value |
| `Settings.ToggledTwice` | app/profile/settings.tsx:172-174 | toggling twice restores the value, and a toggle changes a value exactly for a switch that has one |
| `Settings.Setting.constructor` | app/profile/settings.tsx:20-29 | a setting with the given id, title, kind, value and info |
| `Settings.SettingsScreen.HandleToggle` | app/profile/settings.tsx:168-177 | the setting's object is changed in place as `Toggled` says; sections, their order and their settings are the same, and no other setting object changes |
| `Settings.SettingsScreen.constructor` | app/profile/settings.tsx:35-165 | four sections "알림 설정", "앱 설정", "계정", "기타" of 4, 3, 3 and 4 settings; each of the fourteen settings has its source id, title, kind, value and info text (all notification switches on, dark mode off, auto-save on, language "한국어", version "1.0.0"), and every switch has a value |
| `Settings.NotificationSection` | app/profile/settings.tsx:36-64 | "알림 설정" with four settings, in order "push_notifications", "recipe_updates", "journal_reminders", "tasting_invites" with their titles, each a switch that is on |
| `Settings.AppSection` | app/profile/settings.tsx:65-90 | "앱 설정" with three settings, in order: the dark-mode switch off, the auto-save switch on, and the language info "한국어"; every switch has a value |
| `Settings.AccountSection` | app/profile/settings.tsx:91-127 | "계정" with three buttons without value, in order profile edit, password change and account deletion |
| `Settings.OtherSection` | app/profile/settings.tsx:128-164 | "기타" with four settings, in order the privacy-policy, terms and contact buttons and the app version info "1.0.0"; none holds a value |
| `DateText.LeadingDigits` | app/events/create.tsx:42-46 | the longest digit prefix of a text |
| `DateText.FormatDate` | app/events/create.tsx:42-46 | the date label "<year>년 <month>월 <day>일" with the month 1-based; `FormatDateRoundTrip` and `FormatDateInjective` state what it means |
| `DateText.FormatTime` | app/events/create.tsx:49-54 | the time label of zero-padded hours and minutes around a colon; `FormatTimeRoundTrip` states what it means |
| `DateText.LeadingDigitsOf` | app/events/create.tsx:42-46 | digits followed by a non-digit are exactly the leading digits |
| `DateText.ReadIntOf` | app/events/create.tsx:43-45 | `String(n)` followed by a non-digit reads back as `n` |
| `DateText.ReadNegativeOf` | app/events/create.tsx:43-45 | `String(-k)` followed by a non-digit reads back as `-k` |
| `DateText.ReadNaturalOf` | app/events/create.tsx:43-45 | `String(k)` of a natural number followed by a non-digit reads back as `k` |
| `DateText.ReadNumberOf` | app/events/create.tsx:43-45 | the digits of `k` followed by a non-digit read back as `k` and the rest |
| `DateText.ReadFieldOf` | app/events/create.tsx:43-45 | a number then a suffix word reads back as the number and what follows the word |
| `DateText.ParseDateOf` | app/events/create.tsx:42-46 | a date label reads as its three fields read one after the other |
| `DateText.FormatDateFields` | app/events/create.tsx:42-46 | the date label splits into year, month and day fields |
| `DateText.FormatDateRoundTrip` | app/events/create.tsx:42-46 | the label reads back as the year, the month plus one (in 1 … 12) and the day; the journal screen's `formatDate` (app/journals/create.tsx:99-103) is the same template |
| `DateText.FormatDateInjective` | app/journals/create.tsx:99-103 | different calendar days get different labels |
| `DateText.TwoDigitsValue` | app/events/create.tsx:50-53 | below 100 the padded number is two digits that read back as the number |
| `DateText.ParseTimeOf` | app/events/create.tsx:49-54 | two two-digit halves around a colon read back as their values |
| `DateText.FormatTimeRoundTrip` | app/events/create.tsx:49-54 | for a valid time the label is five characters with the colon in the middle, and both halves read back as the hours and the minutes |
| `EventCreate.DefaultEndMs` | app/events/create.tsx:27-29 | the default end is 7,200,000 ms (two hours) after the clock reading |
| `EventCreate.Labels` | app/events/create.tsx:36-54 | the texts an input pair starts with are the date label and the time label of the date, and the time label is `HH:MM`, reading back as the hours and minutes |
| `EventCreate.EventForm.constructor` | app/events/create.tsx:22-39 | the initial fields, the end two hours after the second clock reading, and the four inputs as the labels of start and end |
| `EventCreate.EventForm.HandleDateChange` | app/events/create.tsx:57-63 | only the end date's text changes when `isEndDate`, only the start date's otherwise |
| `EventCreate.EventForm.HandleTimeChange` | app/events/create.tsx:66-72 | only the end time's text changes when `isEndDate`, only the start time's otherwise |
| `EventCreate.EventForm.PickImage` | app/events/create.tsx:75-86 | the image becomes the picked URI, and stays as it was when the picker was cancelled; nothing else changes |
| `EventCreate.EventForm.HandleSave` | app/events/create.tsx:89-92 | saving only goes back; no field changes |
| `JournalCreate.Find` | app/journals/create.tsx:92 | `find` by id: none exactly when no recipe has the id, otherwise the first recipe that has it |
| `JournalCreate.ColorInfoFor` | app/journals/create.tsx:90-94 | `getRecipeColorInfo`, with the truthiness of the selection and the two fallbacks; `ColorInfoSpec` states it case by case |
| `JournalCreate.StagesFor` | app/journals/create.tsx:106-108 | `selectedRecipeStages`, the stages of the selected recipe or none; `StagesSpec` states it |
| `JournalCreate.ColorInfoSpec` | app/journals/create.tsx:90-94 | the "전통주" colours unless a known recipe with a non-empty, listed type is selected, and that type's colours then |
| `JournalCreate.StagesSpec` | app/journals/create.tsx:106-108 | no stages without a selection or for an unknown id; otherwise the stages of the first recipe with the selected id |
| `JournalCreate.ScreenData` | app/journals/create.tsx:37-94 | on the screen's data recipe 1 shows the 막걸리 colours and four stages, recipe 2 the 과실주 colours, no selection the 전통주 colours and no stages |
| `JournalCreate.ToggleRecipe` | app/journals/create.tsx:183 | the selector clears a selection of recipe 1 and otherwise selects recipe 1 |
| `JournalCreate.ToggleRecipeTwice` | app/journals/create.tsx:183 | from no selection or recipe 1, two taps restore the selection; after the first tap the selection alternates |
| `AdultVerification.InitialNothingChecked` | app/adult-verification.tsx:25-29 | not one of the three boxes is ticked at first |
| `AdultVerification.ToggleCheck` | app/adult-verification.tsx:36-42 | a tap negates exactly the tapped box and keeps the other two |
| `AdultVerification.ToggleCheckTwice` | app/adult-verification.tsx:38-41 | tapping the same box twice changes nothing |
| `AdultVerification.ToggleCheckCommutes` | app/adult-verification.tsx:38-41 | taps on two boxes give the same result in either order |
| `AdultVerification.RequestVerification` | app/adult-verification.tsx:45-72 | nothing happens exactly when the phone number has fewer than ten characters; otherwise the haptic and the two animations start |
| `AdultVerification.RequestDisabled` | app/adult-verification.tsx:171 | `phoneNumber.length < 10` disables the request button; `RequestDisabledIffNoEffect` ties it to the handler |
| `AdultVerification.RequestDisabledIffNoEffect` | app/adult-verification.tsx:171 | the request button is disabled exactly when a request would do nothing, whatever the consents |
| `Register.CanRegister` | app/register.tsx:108-116 | the five-way truthiness conjunction that enables the button; `ButtonRule` states it field by field |
| `Register.ButtonRule` | app/register.tsx:110-116 | disabled exactly when a text field is empty or the terms are not accepted, and styled as disabled exactly then |
| `Register.PasswordsNotCompared` | app/register.tsx:114-116 | a form whose confirmation differs from its password can still register |
| `Register.TapTerms` | app/register.tsx:95 | a tap negates `agreeTerms` and changes nothing else |
| `Register.TermsToggle` | app/register.tsx:20 | the form opens disabled with the terms unaccepted, and two taps give the form back |
| `Register.PressRegister` | app/register.tsx:22-25 | a press navigates exactly when the rule allows it, and then only to "/adult-verification" |

## Left out

- The Supabase SDK, the browser, AsyncStorage, the image picker, `Alert`,
  haptics, animations, `Keyboard.dismiss`, the splash screen and fonts are
  not modelled. Their results are parameters, and their effects appear only
  as recorded calls or alerts.
- The `console.error` logging in the catch blocks of lib/supabase.ts,
  contexts/AuthContext.tsx, app/login.tsx and app/recipes/create.tsx is not
  modelled. It only writes to the console and changes no state.
- Overlapping asynchronous calls are not modelled. The code has no
  coalescing, no "already in progress" rejection, and no ordering between
  sign-in and sign-out. Each handler is modelled as one run whose await
  points are listed as observable states.
- The code signs out locally only after the remote sign-out succeeds: a
  failed remote sign-out leaves user and session as they were
  (`SignOutClearsOnlyOnSuccess`).
- A refresh makes the new session visible while the user lookup is still
  pending (`RefreshShowsSessionBeforeUser`): for one await the context holds
  the new session with the old user.
- The redirect URL's scheme and host are not checked, and its parameters
  are not percent-decoded. The code does neither, so the model does not
  either.
- `ParamValue` finds a key anywhere in the URL, including inside another
  parameter's name or value. The model's results follow the code's text
  search exactly.
- The `Date` object and the clock are not modelled. A date is the values of
  its getters, and the clock readings are parameters.
- Lengths are counted in characters, not UTF-16 code units. This matters
  for the ten-character phone guard with astral-plane characters only.
- `GoogleFlow`: an `error` field returned by `setSession` is not checked by
  the code. Only a throw of that call ends the flow, and the model keeps it
  that way.
- The success alert's "확인" button calls `router.back()`. It is
  navigation and is recorded only as the `Saved` alert.
- app/recipes/create.tsx repeats `addIngredient`, `removeIngredient`,
  `updateIngredient`, `addStep`, `removeStep` and `updateStep` (lines
  70-111) with the same bodies as the editor components. The copies are
  modelled once, in `IngredientsForm` and `StepsForm`.
- app/recipes/create.tsx also defines `handleUnitChange`, and its basic-info
  setters are plain assignments. These are not modelled separately.
- The settings screen's button and info actions, and its logout
  confirmation, only navigate or show alerts. They are not modelled.
- `IngredientsForm.FormState.TapAdd` applies the corrected add
  (`AddIngredient`, a fresh id) rather than the button's `addIngredient`
  as written (id `String(length + 1)`), so the form state never holds the
  duplicate id of the Findings row; the as-written add is
  `AddIngredientAsWritten`, and `AddAgreesWhileNumbered` shows the two agree
  while rows have only been appended.
- `Settings.SettingsScreen.constructor` does not state outright that the
  fourteen setting objects are distinct; it follows only from the fourteen
  different ids it states. `HandleToggle` promises "unchanged" for every
  other setting object, not for every other position. The two agree when
  no object is shared, as at the screen's start.
- A recipe type that is the name of an `Object.prototype` property (such
  as "constructor") would find an inherited value in the colour table. The
  model's table holds only its own entries.
- JSX rendering is left out, except the pieces the handlers depend on:
  disabled flags, labels and the spinner. `StyleSheet` tables and the
  presentational components are left out too.

## Findings

| source | as written | input that shows it | evidently intended | confidence | as-written member | corrected member |
|---|---|---|---|---|---|---|
| components/recipe/IngredientsForm.tsx:45-55 | a new ingredient's id is `String(length + 1)`; removal drops every row with the id | from one row: add, add (ids 1, 2, 3), remove "1", add (id "3" again), remove "2", remove "3" leaves no row although the list had two | ids unique, so that a removal takes out one row and the list never becomes empty | high, not executed | `IngredientsForm.AsWrittenRemovalEmptiesList` | `IngredientsForm.AddIngredient` |
| components/recipe/StepsForm.tsx:36-43 | a new step's id is `String(length + 1)`; removal drops every step with the id | the same sequence on steps leaves no step | ids unique, so that removal takes out one step and the list never becomes empty | high, not executed | `StepsForm.AsWrittenRemovalEmptiesList` | `StepsForm.AddStep` |

The corrected adds are used by the model's form state, and the properties
proved about them are `AddKeepsIdsUnique`, `RemoveKeepsOneRow` and
`RemoveKeepsOneStep`. `AddAgreesWhileNumbered` shows that they pick the
source's own id for as long as rows have only been appended.
