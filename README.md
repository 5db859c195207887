# Coaching app front end: a verified model of its logic

This project models the logic of a React front end for a personal-coaching service. A coach ("admin") manages clients ("calibrantes"), an exercise library, workout templates ("programas") and the workouts assigned to each client. A client signs in, follows the assigned plan and records feedback. The model covers the parts of the front end that decide something:

- the session store and the route guard;
- the two workout builders;
- the YouTube and image URL helpers;
- the search filters;
- the payloads the forms assemble, and the form validation and reset rules.

The markup, the styling and the network do not decide anything, so they are not modelled.

Each source file is one Dafny module. The shared helpers are:

- `Wrappers`: `Option`.
- `Lists`: `filter`, and `splice` at one index.
- `Text`: JavaScript's `trim`, `split`, `toLowerCase`/`toUpperCase`, `includes` and `x || d`. Also the `split(',').map(trim).filter(Boolean)` idiom.
- `Catalog`: exercises, configurations and templates, shared by both builders.

Where the source only computes, it becomes functions and lemmas. A component whose handlers update state step by step becomes a `class`: its `useState` values are fields, and each handler is a method with a `modifies` clause whose `ensures` states the whole new state. An async handler that sets a flag (`loading`, `saving`) while a request runs is split in two:

- the part before the request, which returns the request it would send;
- the part after the answer, which takes the server's answer as a parameter.

Answers to `confirm` and `prompt` are parameters too. Stored tokens and the default `x-auth-token` header are fields of the session store.

## Model

| member | source | states |
|---|---|---|
| Lists.RemoveAt | src/components/WorkoutBuilderModal.jsx:70-74 | `splice(i, 1)` on a copy: for an index inside the list, the length drops by one, earlier entries stay and later entries move down one place. A negative index counts from the end. An index past the end changes nothing. |
| Lists.RemoveAtMultiset | src/components/WorkoutBuilderModal.jsx:70-74 | Removing index `i` takes exactly one occurrence of the entry at `i` out of the list's multiset. |
| Lists.RemoveAfterAppend | src/components/WorkoutBuilderModal.jsx:57-74 | Removing the last index after an append gives back the original list. |
| Lists.FilterIsSubseq | src/pages/admin/Ejercicios.jsx:38-46 | `filter` keeps a subsequence of its input, in the original order. |
| Lists.FilterMembership | src/pages/admin/Ejercicios.jsx:38-46 | An element survives `filter` exactly when it is in the input and passes the test. |
| Lists.FilterKeepsAll | src/pages/admin/Calibrantes.jsx:33-36 | A test every element passes keeps the whole list. |
| Lists.FilterFilter | src/pages/admin/Ejercicios.jsx:34-49 | Two filters in a row are one filter on the conjunction of the tests. |
| Lists.FilterMultiset | src/pages/admin/CalibranteDetalle.jsx:74 | `filter` keeps every copy of an element that passes and no copy of one that fails. |
| Lists.FilterConcat | src/pages/admin/CalibranteDetalle.jsx:74 | Filtering a concatenation is the concatenation of the filtered parts. |
| Text.Trim | src/pages/admin/Programas.jsx:95 | `trim` returns the infix `s[i..j]` of the input such that only white space and line terminators lie before `i` and after `j`, and the result starts and ends with neither. |
| Text.BlankIffAllWhite | src/pages/admin/Programas.jsx:95 | A string is blank after `trim` exactly when every character is white space or a line terminator. |
| Text.TrimIdempotent | src/pages/admin/Programas.jsx:95 | `trim(trim(s)) == trim(s)`. |
| Text.Upper | src/pages/ActivateAccount.jsx:40 | `toUpperCase` keeps the length and upper-cases each character in place. |
| Text.Lower | src/pages/admin/Calibrantes.jsx:34-35 | `toLowerCase` keeps the length and lower-cases each character in place. |
| Text.UpperHasNoLowerCase | src/pages/Login.jsx:86 | An upper-cased code contains no ASCII lower-case letter. |
| Text.ContainsEmpty | src/pages/admin/Calibrantes.jsx:33-36 | Every string includes the empty string, so an empty search matches everything. |
| Text.ContainsSelf | src/pages/admin/Calibrantes.jsx:34-35 | Every string includes itself. |
| Text.SplitOn | src/components/NewExerciseModal.jsx:26 | `split(sep)` returns at least one piece, no piece contains the separator, and joining the pieces with the separator gives back the input. |
| Text.SplitJoin | src/components/NewExerciseModal.jsx:26 | `split` undoes `join`: splitting a join of separator-free pieces gives the pieces back. |
| Text.SplitListItems | src/components/NewCalibranteModal.jsx:36 | Every item of `split(',').map(trim).filter(Boolean)` is non-empty, trimmed and free of commas. |
| Text.SplitListInOrder | src/components/NewExerciseModal.jsx:26 | The items are a subsequence of the trimmed pieces, so they keep the order they were typed in. |
| Text.SplitListOfJoin | src/components/NewExerciseModal.jsx:26 | A list of clean items, joined with commas, is read back unchanged. |
| Text.SplitListIdempotent | src/components/NewCalibranteModal.jsx:36 | Reading a list, joining it and reading it again gives the same list. |
| YouTube.MatchStart | src/pages/client/MiPlan.jsx:37-38 | The match of `^.*(markers)([^#&?]*).*` begins at the marker occurrence that starts last on the first line. There is no match when no marker occurs there. |
| YouTube.ChosenStartUnique | src/pages/client/MiPlan.jsx:37 | The greedy `.*` picks exactly one marker occurrence. |
| YouTube.VideoIdSpec | src/pages/client/MiPlan.jsx:37-38 | The captured id is absent exactly when no marker occurs. Otherwise it is the run that follows the chosen marker. |
| YouTube.VideoIdIsMaximalRun | src/pages/client/MiPlan.jsx:37 | The id contains no `#`, `&` or `?`, and is followed by one of them or by the end of the string. |
| YouTube.EmbedUrl | src/pages/client/MiPlan.jsx:35-40 | A missing or empty link gives null. A non-null result is the embed prefix followed by 11 characters. |
| YouTube.EmbedUrlSpec | src/pages/client/MiPlan.jsx:35-40 | `getEmbedUrl` of a URL with a marker is the embed prefix plus the id when the id has 11 characters, and null otherwise. The copy at src/pages/client/MiPlan.jsx:152-157 is the same text and is the same function. |
| YouTube.EmbedUrlWithoutMarker | src/pages/client/MiPlan.jsx:38-39 | A URL with no marker gives null. |
| YouTube.EmbedUrlShape | src/pages/client/MiPlan.jsx:39 | A non-null result is `https://www.youtube.com/embed/` followed by 11 characters, none of them `#`, `&` or `?`. |
| ImageUtils.ImageUrl | src/utils/imageUtils.js:10-21 | A missing or empty path gives null. An `http://` or `https://` path is returned as it is. Any other path is the API base, `/`, then the path. |
| ImageUtils.ImageUrlEndsWithPath | src/utils/imageUtils.js:14-20 | Every non-empty path gives a URL that ends with the path. |
| ImageUtils.ImageUrlKeepsLeadingSlash | src/utils/imageUtils.js:18-20 | There is no slash normalisation: a path starting with `/` gives `//` after the base. |
| ImageUtils.ImageUrlIdempotent | src/utils/imageUtils.js:14-20 | With an absolute API base, applying the helper to its own result changes nothing. |
| Ejercicios.FilteredIsOneFilter | src/pages/admin/Ejercicios.jsx:33-50 | The effect's chain of filters keeps exactly the exercises that pass both the text test and the category test. |
| Ejercicios.FilteredIsSubseq | src/pages/admin/Ejercicios.jsx:33-50 | The filtered list keeps the library's order. |
| Ejercicios.FilteredMembership | src/pages/admin/Ejercicios.jsx:37-47 | An exercise is shown exactly when both tests pass. The text test passes when the term is empty, or when the name or some tag includes the term, ignoring case. The category test passes for "Todos" or an exact category match. |
| Ejercicios.UnfilteredShowsAll | src/pages/admin/Ejercicios.jsx:37-46 | An empty term with "Todos" shows the whole library. |
| Ejercicios.ThumbnailAgreesWithEmbed | src/pages/admin/Ejercicios.jsx:53-60 | The thumbnail exists exactly when the embed URL exists, and both use the same video id. |
| Ejercicios.Thumbnail | src/pages/admin/Ejercicios.jsx:53-60 | A missing or empty link gives null. A non-null result is the thumbnail prefix, 11 characters and "/mqdefault.jpg". |
| Ejercicios.ThumbnailSpec | src/pages/admin/Ejercicios.jsx:53-60 | The thumbnail is `https://img.youtube.com/vi/<id>/mqdefault.jpg` when the id has 11 characters, and null otherwise. |
| Catalog.Config.With | src/pages/admin/Programas.jsx:87-92 | Writing one field of a configuration sets that field and leaves the other three as they were. |
| Catalog.WithLaws | src/components/WorkoutBuilderModal.jsx:77-81 | Writing a field's current value changes nothing. Of two writes to one field, the last one counts. |
| Catalog.ConfigExtensional | src/pages/admin/Programas.jsx:87-92 | Two configurations that agree on all four fields are equal. |
| Catalog.FindTemplateIndex | src/components/WorkoutBuilderModal.jsx:36 | `find` returns the first template with the id, and none exactly when no template has it. |
| WorkoutBuilder.Added | src/components/WorkoutBuilderModal.jsx:57-65 | `addExercise` appends one entry with the exercise's id and name and sets "3", reps "10", rest "60s", notes "". Earlier entries are unchanged. |
| WorkoutBuilder.AddedTwice | src/components/WorkoutBuilderModal.jsx:57-65 | Adding the same exercise twice gives two equal entries. There is no duplicate check. |
| WorkoutBuilder.RemoveUndoesAdd | src/components/WorkoutBuilderModal.jsx:57-74 | Removing the entry just added restores the list. |
| WorkoutBuilder.Updated | src/components/WorkoutBuilderModal.jsx:77-81 | `updateField(i, f, v)` changes field `f` of entry `i` and nothing else. |
| WorkoutBuilder.UpdatedLaws | src/components/WorkoutBuilderModal.jsx:77-81 | Writing back the current value is the identity. The second of two writes to the same field wins. |
| WorkoutBuilder.FromTemplate | src/components/WorkoutBuilderModal.jsx:44-51 | The template mapping exists exactly when every item has an exercise. It then has one entry per item, in order, copying the id, name, sets, reps, rest and notes. |
| WorkoutBuilder.Project | src/components/WorkoutBuilderModal.jsx:95-101 | The posted `exercises` has one item per entry, in order, with the name dropped. |
| WorkoutBuilder.LoadThenSubmit | src/components/WorkoutBuilderModal.jsx:44-51 | Loading a template and submitting it at once posts exactly the template's exercises and configurations. |
| WorkoutBuilder.LibraryFilterMembership | src/components/WorkoutBuilderModal.jsx:119-121 | An exercise is offered exactly when it is in the library and its name includes the term, ignoring case. |
| WorkoutBuilder.LibraryFilterOrderAndEmpty | src/components/WorkoutBuilderModal.jsx:119-121 | The offered list keeps the library's order, and an empty term offers the whole library. |
| WorkoutBuilder.Builder.constructor | src/components/WorkoutBuilderModal.jsx:6-15 | The modal opens with an empty title, list and search, not loading. |
| WorkoutBuilder.Builder.DataLoaded | src/components/WorkoutBuilderModal.jsx:16-32 | The fetched library and templates are stored, and nothing else changes. |
| WorkoutBuilder.Builder.LoadTemplate | src/components/WorkoutBuilderModal.jsx:35-54 | An unknown id or a refused confirmation changes nothing. Otherwise the title becomes the template's title and the list becomes the mapped items. When an item has no exercise the mapping throws after the title is copied, and the list is kept. |
| WorkoutBuilder.Builder.AddExercise | src/components/WorkoutBuilderModal.jsx:57-67 | The list becomes `Added(list, ex)` and the search is cleared. |
| WorkoutBuilder.Builder.RemoveExercise | src/components/WorkoutBuilderModal.jsx:70-74 | The list becomes `RemoveAt(list, i)`, and nothing else changes. |
| WorkoutBuilder.Builder.UpdateField | src/components/WorkoutBuilderModal.jsx:77-81 | The list becomes `Updated(list, i, f, v)`, and nothing else changes. |
| WorkoutBuilder.Builder.Submit | src/components/WorkoutBuilderModal.jsx:84-100 | No request is made, and nothing changes, exactly when the title is empty (untrimmed) or the list is empty. Otherwise `loading` is set and the request carries the client, the title and the projected list. |
| WorkoutBuilder.Builder.SubmitSettled | src/components/WorkoutBuilderModal.jsx:102-113 | On success the modal closes and the title and list are emptied. On failure they are kept. `loading` is cleared either way. |
| TemplateBuilder.Defaulted | src/pages/admin/Programas.jsx:41-46 | Each missing field of a prefilled configuration becomes '3', '10-12', '60s' or ''. Each present field is kept. |
| TemplateBuilder.PrefillSelection | src/pages/admin/Programas.jsx:37-45 | The prefilled selection is the exercises of the items that have one, one per such item, in item order. Items without an exercise are skipped. |
| TemplateBuilder.PrefillConfigs | src/pages/admin/Programas.jsx:37-45 | An id has a prefilled configuration exactly when some item names that exercise. |
| TemplateBuilder.PrefillLastWins | src/pages/admin/Programas.jsx:37-45 | When an id repeats, its configuration is the defaulted one of its last item. |
| TemplateBuilder.PrefillCovered | src/pages/admin/Programas.jsx:37-45 | After prefill every selected id has a configuration. |
| TemplateBuilder.PrefillDistinct | src/pages/admin/Programas.jsx:37-45 | A template whose items name distinct exercises prefills a duplicate-free selection. |
| TemplateBuilder.CollectPrefill | src/pages/admin/Programas.jsx:34-49 | The `forEach` loop pushes into the selection and writes the map, and ends with the prefilled selection and configurations. |
| TemplateBuilder.AddKeepsConsistent | src/pages/admin/Programas.jsx:62-73 | Adding an exercise that is not selected keeps the selected ids distinct and every selected id configured. |
| TemplateBuilder.RemoveKeepsConsistent | src/pages/admin/Programas.jsx:75-85 | Removing an index keeps the selected ids distinct and every selected id configured. |
| TemplateBuilder.RemoveDropsOnlyThat | src/pages/admin/Programas.jsx:75-85 | With distinct selections, removing an index leaves that exercise neither selected nor configured. The selection loses exactly that one entry (as a multiset), and every other configuration key keeps its value. |
| TemplateBuilder.ConfigChanged | src/pages/admin/Programas.jsx:87-92 | A configuration change writes only the named field of that exercise's configuration, and every other exercise's configuration is kept. When the exercise had no configuration, its other fields stay missing. |
| TemplateBuilder.Payload | src/pages/admin/Programas.jsx:98-101 | The payload has one item per selection, in selection order, each naming the selected exercise's id. |
| TemplateBuilder.PayloadUsesConfigs | src/pages/admin/Programas.jsx:98-101 | When every selected id is configured, each payload item carries that id's configuration. |
| TemplateBuilder.EditThenSave | src/pages/admin/Programas.jsx:30-57 | Opening a template whose items all have distinct exercises and saving it at once sends one item per template item, each with its defaulted configuration. |
| TemplateBuilder.AllPresentSelection | src/pages/admin/Programas.jsx:37-45 | When every item has an exercise, the prefilled selection is the item exercises in order. |
| TemplateBuilder.LibraryFilterMembership | src/pages/admin/Programas.jsx:129-132 | An exercise is offered exactly when its name or category includes the term, ignoring case. |
| TemplateBuilder.Builder.constructor | src/pages/admin/Programas.jsx:7-15 | The modal starts empty. |
| TemplateBuilder.Builder.Open | src/pages/admin/Programas.jsx:18-60 | In edit mode the title, description (or ''), selection and configurations come from the template. In new mode title, description, selection, configurations and search are reset. |
| TemplateBuilder.Builder.LibraryLoaded | src/pages/admin/Programas.jsx:21-28 | The fetched library is stored, and nothing else changes. |
| TemplateBuilder.Builder.AddExercise | src/pages/admin/Programas.jsx:62-73 | An exercise already selected is rejected and nothing changes. Otherwise it is appended and configured with the defaults. Consistency is kept. |
| TemplateBuilder.Builder.RemoveExercise | src/pages/admin/Programas.jsx:75-85 | The selection loses index `i` and the map loses that exercise's key. Consistency is kept. |
| TemplateBuilder.Builder.ConfigChange | src/pages/admin/Programas.jsx:87-92 | The map becomes `ConfigChanged(map, id, f, v)`. |
| TemplateBuilder.Builder.Submit | src/pages/admin/Programas.jsx:94-113 | No request is made exactly when the title is blank after trim or nothing is selected. Otherwise the request carries the title, description and payload, as an update in edit mode and a creation otherwise. |
| Auth.LoginError | src/context/AuthContext.jsx:59-62 | A failed login reports the server's `msg`, or "Error al iniciar sesión" when there is none. The error is never empty. |
| Auth.AuthProvider.constructor | src/context/AuthContext.jsx:9-11 | The store starts loading, with nobody signed in and the header unset. |
| Auth.AuthProvider.LoadUser | src/context/AuthContext.jsx:15-23 | With no stored token, loading ends, no request is made and the header is untouched. With a token, the header is set to it before the identity request. |
| Auth.AuthProvider.LoadUserSettled | src/context/AuthContext.jsx:25-36 | On success the user is the identity plus `token`. On failure the token leaves storage and the header and nobody is signed in. Loading ends either way, and the store stays in step. |
| Auth.AuthProvider.Login | src/context/AuthContext.jsx:42-64 | Only email and password are sent. On success the stored token and the header both become the returned token, and the user is the returned user with the returned role. On failure nothing changes and the error is `LoginError(msg)`. |
| Auth.AuthProvider.Logout | src/context/AuthContext.jsx:66-70 | The token leaves storage and the header, and nobody is signed in. |
| Auth.LoginRole | src/context/AuthContext.jsx:55 | The user's role after login is the returned role, and every other field of the returned user is kept. |
| Routes.Guard | src/App.jsx:21-30 | `PrivateRoute` shows the placeholder while loading. Otherwise it redirects to "/" without a user or with a different role, and renders exactly when there is a user and no role is required or the role matches. |
| Routes.AdminPagesNeedAdmin | src/App.jsx:40-54 | Every page under `/admin` is shown only to a signed-in "admin", after loading. |
| Routes.ClientPagesNeedClient | src/App.jsx:56-65 | Every page under `/client` is shown only to a signed-in "client", after loading. |
| Routes.ClientNeverGetsAdmin | src/App.jsx:40-54 | A "client" who asks for any path under `/admin` is redirected to "/" or finds no route. |
| Routes.AdminIndexGoesToPanel | src/App.jsx:47-53 | For an admin, `/admin` redirects to `/admin/panel`, and every admin child route shows its page. |
| Routes.LoadingShowsPlaceholder | src/App.jsx:24 | While loading, every matched guarded path shows the placeholder. |
| Routes.PlaceholderNeverShown | src/context/AuthContext.jsx:74 | The provider renders the routes only after loading, so the guard's placeholder is never on screen. |
| MiPlan.Toggled | src/pages/client/MiPlan.jsx:93-98 | A click on the open workout closes it. A click on any other workout opens that one alone. |
| MiPlan.ToggledTwice | src/pages/client/MiPlan.jsx:98 | Two clicks on the same header restore an open card, and otherwise leave the accordion closed. |
| MiPlan.AtMostOneExpanded | src/pages/client/MiPlan.jsx:93 | All open workouts have the same id, so at most one is open. |
| MiPlan.PlanView.constructor | src/pages/client/MiPlan.jsx:9-12 | The page starts loading, with no plan, no error and nothing open. |
| MiPlan.PlanView.Loaded | src/pages/client/MiPlan.jsx:18-22 | The plan is stored, and the first workout is opened when there is one. |
| MiPlan.PlanView.LoadFailed | src/pages/client/MiPlan.jsx:23-28 | The error's message, or "Error desconocido", is kept, and loading ends. |
| MiPlan.PlanView.Toggle | src/pages/client/MiPlan.jsx:98 | The accordion becomes `Toggled(expanded, id)`. |
| MiPlan.MediaOf | src/pages/client/MiPlan.jsx:163-198 | The card shows the cover exactly when it is not in video mode and there is an image. The cover's source is `getImageUrl(image)`, and it has a play button exactly when there is a video. It shows the player exactly when a video exists and either video mode is on or there is no image. |
| MiPlan.ExerciseCard.constructor | src/pages/client/MiPlan.jsx:150 | A card starts in video mode exactly when its exercise has no image. |
| MiPlan.ExerciseCard.PlayVideo | src/pages/client/MiPlan.jsx:170-180 | The play button switches to video mode. |
| MiPlan.ExerciseCard.ShowCover | src/pages/client/MiPlan.jsx:202-209 | "Ver Portada" switches back to the cover. |
| MiPlan.InitialMedia | src/pages/client/MiPlan.jsx:150-198 | A new card shows its cover when it has an image. Without an image it shows the player, or "Sin video disponible" when there is no video either. A new card never shows "Ver Portada". |
| MiPlan.SwitchingMedia | src/pages/client/MiPlan.jsx:163-209 | With an image and a video, the play button leads to the player and "Ver Portada" back to the cover. |
| CalibranteDetalle.ToggleZone | src/pages/admin/CalibranteDetalle.jsx:72-77 | An absent zone is appended at the end. A present zone is removed in every occurrence, and the rest keep their order with every copy kept (the multiset loses only that zone). |
| CalibranteDetalle.ToggleAbsentTwice | src/pages/admin/CalibranteDetalle.jsx:74 | Toggling an absent zone twice restores the list. |
| CalibranteDetalle.TogglePresentTwice | src/pages/admin/CalibranteDetalle.jsx:74 | Toggling a present zone twice moves it to the end, once. |
| CalibranteDetalle.ToggleKeepsSelectionClean | src/pages/admin/CalibranteDetalle.jsx:74 | Toggling keeps a selection of known zones free of repeats. |
| CalibranteDetalle.FilterKeepsNoRepeats | src/pages/admin/CalibranteDetalle.jsx:74 | Filtering a list without repeats leaves none. |
| CalibranteDetalle.DeleteUser | src/pages/admin/CalibranteDetalle.jsx:100-110 | The delete request is made exactly when the confirmation is accepted and the typed text is the client's name. After a successful delete the page goes to `/admin/calibrantes`. |
| CalibranteDetalle.NoteRequestFor | src/pages/admin/CalibranteDetalle.jsx:455-474 | No request is made exactly when the content is blank after trim. In edit mode an update of the edited note is sent. Otherwise a new note for the client is created. |
| CalibranteDetalle.WhiteNoteNotSent | src/pages/admin/CalibranteDetalle.jsx:458 | A note made only of white space is never sent. |
| CalibranteDetalle.NotesSection.Type | src/pages/admin/CalibranteDetalle.jsx:497-498 | Typing edits the edited note's content in edit mode, and the new note otherwise. |
| CalibranteDetalle.NotesSection.StartEdit | src/pages/admin/CalibranteDetalle.jsx:527 | The edit button makes that note the edited one. |
| CalibranteDetalle.NotesSection.CancelEdit | src/pages/admin/CalibranteDetalle.jsx:505-506 | Cancelling leaves edit mode and keeps the new note. |
| CalibranteDetalle.NotesSection.SaveNote | src/pages/admin/CalibranteDetalle.jsx:455-478 | The request is `NoteRequestFor`. After a successful save the notes are fetched again, and edit mode is left or the new note cleared. Otherwise nothing changes. |
| CalibranteDetalle.EvaluationPanel.ToggleZoneOf | src/pages/admin/CalibranteDetalle.jsx:72-77 | The form's zones become `ToggleZone(zones, z)`. |
| CalibranteDetalle.EvaluationPanel.Submitted | src/pages/admin/CalibranteDetalle.jsx:78-87 | The form is sent as it is. After a successful save the panel closes and the form resets to type "Seguimiento" with no zones, focus or notes. |
| CalibranteDetalle.ExerciseLabel | src/pages/admin/CalibranteDetalle.jsx:341 | A missing exercise is labelled "Ejercicio eliminado". |
| CalibranteDetalle.WorkoutLabel | src/pages/admin/CalibranteDetalle.jsx:420 | A missing workout is labelled "Rutina Eliminada". |
| Feedback.ExercisesData | src/components/FeedbackModal.jsx:25-29 | One entry per workout item, in order. Each has the exercise's id and name, and the recorded weight for that id or ''. |
| Feedback.WeightChanged | src/components/FeedbackModal.jsx:16-18 | A weight is recorded only for an item with an exercise id, and only that key changes. |
| Feedback.TypedWeightIsSent | src/components/FeedbackModal.jsx:16-29 | After a weight is typed for an exercise, every item of that exercise is sent with it, and every other item is unchanged. |
| Feedback.FeedbackForm.constructor | src/components/FeedbackModal.jsx:8-12 | The form starts with rpe 5, no comments, no weights, not saving. |
| Feedback.FeedbackForm.SetRpe | src/components/FeedbackModal.jsx:90-91 | The slider sets rpe to an integer from 1 to 10. |
| Feedback.FeedbackForm.SetComments | src/components/FeedbackModal.jsx:9 | The comments box sets the comments. |
| Feedback.FeedbackForm.WeightChange | src/components/FeedbackModal.jsx:75 | The weights become `WeightChanged(weights, item, value)`. |
| Feedback.FeedbackForm.Submit | src/components/FeedbackModal.jsx:20-39 | `saving` is set, and the request carries the workout, an rpe within 1 to 10, the comments and `ExercisesData`. |
| Feedback.FeedbackForm.SubmitSettled | src/components/FeedbackModal.jsx:40-47 | The parent is told and the modal closed only after a successful post. `saving` is cleared either way. |
| ActivateAccount.ValidationError | src/pages/ActivateAccount.jsx:28-33 | Mismatched passwords are reported first. Then a password shorter than 6 characters is reported. Otherwise there is no error. |
| ActivateAccount.ClaimOf | src/pages/ActivateAccount.jsx:38-42 | The claim sends the email and password unchanged and the code as `toUpperCase` of the typed code, so it holds no lower-case letter. |
| ActivateAccount.CodeCaseDoesNotMatter | src/pages/ActivateAccount.jsx:40 | Codes typed in different cases send the same claim. |
| ActivateAccount.ActivationTarget | src/pages/ActivateAccount.jsx:48-49 | Role "admin" goes to `/admin`, and any other role to `/client/dashboard`. |
| ActivateAccount.ActivationPath | src/pages/ActivateAccount.jsx:47-49 | The route the page navigates to after a claim: "/admin" for an admin, "/client/dashboard" for any other role. |
| ActivateAccount.FreshActivationLandsOnSignIn | src/pages/ActivateAccount.jsx:45-49 | The claim does not sign anyone in: `login(token, {role})` is not awaited and does not fit the session store's `login`. A visitor who was not signed in is therefore redirected to "/" by the target route's guard (src/App.jsx:25), for a coach and a client alike. |
| ActivateAccount.ActivatePage.Change | src/pages/ActivateAccount.jsx:20-22 | An input change replaces the form. |
| ActivateAccount.ActivatePage.Submit | src/pages/ActivateAccount.jsx:24-42 | The error is cleared first. A validation error is shown and no request is made. Otherwise `loading` is set and the claim is sent. |
| ActivateAccount.ActivatePage.Settled | src/pages/ActivateAccount.jsx:44-56 | On success `login(token, {role})` is called and the page navigates to the target. On failure the error is the server's `msg` or "Error al activar la cuenta". `loading` is cleared either way. |
| LoginPage.LoginTarget | src/pages/Login.jsx:26-30 | The selected button "admin" goes to `/admin/calibrantes`, and any other choice to `/client/dashboard`. |
| LoginPage.ClientThroughCoachButton | src/pages/Login.jsx:24-30 | A client who signs in through the coach button is sent to `/admin/calibrantes`, and the guard then redirects them to "/". |
| LoginPage.CoachThroughCoachButton | src/pages/Login.jsx:24-30 | A coach signed in through the coach button reaches the client list. |
| LoginPage.Page.SelectRole | src/pages/Login.jsx:114-125 | Choosing a role records it and keeps the typed email and password. |
| LoginPage.Page.BackOut | src/pages/Login.jsx:195 | "Volver atrás" clears the selected role and the error. |
| LoginPage.Page.Submit | src/pages/Login.jsx:16-22 | The error is cleared and `loading` set before the call, and the email and password are sent. |
| LoginPage.Page.SubmitSettled | src/pages/Login.jsx:24-34 | On success the page navigates to `LoginTarget(role)`. On failure the error is the result's error and there is no navigation. `loading` is cleared. |
| LoginPage.Page.OpenReset | src/pages/Login.jsx:180 | Opening the reset form clears the error. |
| LoginPage.Page.CancelReset | src/pages/Login.jsx:93 | Cancelling closes the reset form and clears the error. |
| LoginPage.Page.SetResetCode | src/pages/Login.jsx:86 | The code is stored upper-cased as it is typed. |
| LoginPage.Page.SetResetFields | src/pages/Login.jsx:85-88 | The other reset inputs are stored as typed. |
| LoginPage.Page.ResetSubmit | src/pages/Login.jsx:41-70 | Mismatched passwords give the mismatch error and no request. A successful reset closes the form and empties every reset field. Otherwise the error is the server's `msg` or "Error al restablecer contraseña", or "Error de conexión" when the server cannot be reached. |
| NewCalibrante.NewClientPayload | src/components/NewCalibranteModal.jsx:30-39 | Name, surname and email are copied. The objectives are `[objective]`, the limitations are the comma-separated list, and the status is "Recién llegado". |
| NewCalibrante.LimitationsAreClean | src/components/NewCalibranteModal.jsx:36 | Every limitation sent is non-empty, trimmed and free of commas. |
| NewCalibrante.NewClientCard | src/pages/admin/Calibrantes.jsx:33-36 | A new client appears in the list with status "Recién llegado", with the typed objective or the placeholder, and with the pain alert exactly when a limitation was listed. A search for the name finds them. |
| NewCalibrante.NewClientModal.Change | src/components/NewCalibranteModal.jsx:19-21 | An input change replaces the form. |
| NewCalibrante.NewClientModal.Submit | src/components/NewCalibranteModal.jsx:23-39 | `loading` is set, the error cleared, and `NewClientPayload(form)` is sent. |
| NewCalibrante.NewClientModal.Settled | src/components/NewCalibranteModal.jsx:40-52 | On success the invitation code is stored. On failure the error is the server's `msg` or "Error al crear calibrante". `loading` is cleared. |
| NewCalibrante.NewClientModal.CloseSuccess | src/components/NewCalibranteModal.jsx:55-60 | Closing the success screen clears the code and empties every form field. |
| NewExercise.RequestOf | src/components/NewExerciseModal.jsx:22-27 | Name, category, video URL and instructions are sent unchanged, and the tags as the comma-separated list. |
| NewExercise.TagsAreClean | src/components/NewExerciseModal.jsx:26 | Every tag is non-empty, trimmed and free of commas. Clean tags joined with commas are sent as typed. |
| NewExercise.FoundByTag | src/pages/admin/Ejercicios.jsx:38-41 | A saved exercise is found in the library by any of its tags. |
| NewExercise.NewExerciseModal.constructor | src/components/NewExerciseModal.jsx:9-15 | The form starts with category "Movilidad" and every other field empty. |
| NewExercise.NewExerciseModal.SetCategory | src/components/NewExerciseModal.jsx:59-60 | The select only offers the six categories, so the category is always one of them. |
| NewExercise.NewExerciseModal.SetText | src/components/NewExerciseModal.jsx:53-79 | Each text input replaces only its own field, and the category stays one of the six. |
| NewExercise.NewExerciseModal.Submit | src/components/NewExerciseModal.jsx:20-27 | `loading` is set and `RequestOf(form)` is sent. |
| NewExercise.NewExerciseModal.Settled | src/components/NewExerciseModal.jsx:28-38 | After a save the modal closes and the form returns to its defaults. After a failure the form is kept. `loading` is cleared either way. |
| Calibrantes.FilterUsersSpec | src/pages/admin/Calibrantes.jsx:33-36 | The shown clients keep the list's order. A client is shown exactly when the name or surname includes the term, ignoring case. |
| Calibrantes.EmptySearchShowsAll | src/pages/admin/Calibrantes.jsx:33-36 | An empty search shows every client. |
| Calibrantes.SearchByNameFinds | src/pages/admin/Calibrantes.jsx:34 | Searching for a client's exact name finds that client. |
| Calibrantes.StatusLabel | src/pages/admin/Calibrantes.jsx:106 | The status badge shows the profile's status, or "Activo" when it is missing. |
| Calibrantes.ObjectiveLabel | src/pages/admin/Calibrantes.jsx:114 | The objective line shows the first objective, or "Sin objetivo definido" when it is missing. |
| Calibrantes.PainAlert | src/pages/admin/Calibrantes.jsx:119-124 | The pain alert appears exactly when the client has a profile with at least one limitation. |

## Left out

- HTTP, `fetch`, `localStorage` and `axios.defaults` are fields or parameters. The identity, login, claim, reset and creation answers arrive as arguments, and `alert`, `confirm` and `prompt` answers are parameters.
- Concurrency is not modelled. Requests are answered one at a time, with no interleaving of in-flight requests. The two `Promise.all` fetches are one `DataLoaded` step, and an answer that arrives after a modal closes is not modelled.
- Text.Lower, Text.Upper: only ASCII letters change case, because Unicode case mapping is not reproduced.
- Strings are sequences of code points, while JavaScript counts UTF-16 units. Lengths differ only outside the Basic Multilingual Plane, for example in the 6-character password check and the 11-character video id.
- React Router matches paths without regard to case and accepts a trailing slash. A path is modelled here as its list of non-empty segments.
- WorkoutBuilder.Updated: `updateField` assigns into an entry object that the previous list also holds. The model works on values, so that aliasing is not captured.
- Missing text fields are modelled as "" wherever only JavaScript truthiness matters. The difference between `undefined` and "" inside a posted payload is not modelled.
- The reset form's `maxLength={6}` and the `required` attributes of the forms are browser checks and are not modelled.
- `setUser`, which the session store exports, is not modelled, because no core file calls it.
- The display fallbacks of src/pages/admin/CalibranteDetalle.jsx:197-214, user editing, workout deletion and note deletion (`handleDeleteNote`, src/pages/admin/CalibranteDetalle.jsx:478-484) are not modelled. They only fetch and render.
- The exercise deletion in src/pages/admin/Ejercicios.jsx:62-73 and the template deletion in src/pages/admin/Programas.jsx:267-276 are a confirmation and a request with no decision in between, so they are not modelled.
- LoginPage.Page.ResetSubmit: a failure to read the answer's body (`res.json()` throwing) is folded into the "server cannot be reached" answer.
- ActivateAccount.ActivatePage.Settled: the call `login(token, {role})` does not match the session store's `login(email, password, role)`. The model records the call with the arguments as written and does not follow it into the store. What this means for the route shown after a claim is stated by ActivateAccount.FreshActivationLandsOnSignIn.
- The `if (!isOpen) return null` early returns are rendering and are not modelled. Each modal class stands for the open modal.
- Floating-point averages, dates and locale formatting are not part of this model: src/pages/client/Progreso.jsx, src/pages/admin/AdminStats.jsx, src/pages/admin/AdminDashboard.jsx and src/pages/client/Dashboard.jsx.
- Layouts, the loader, the profile page and the entry point only render, so they are not part of this model.
