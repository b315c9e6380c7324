# Password vault screens: a Dafny model

This project models the stateful logic inside the client screens of a small
password-manager web application. The application's persistence and
authentication are delegated to a hosted backend. The model covers:

- the dashboard's case-insensitive search filter over the credential list,
  the list refresh (`fetchCredentials`) and deletion (`handleDelete`) with the
  backend's answer as a parameter, and what the page body shows (loading
  screen, empty state, card grid);
- the credential card: category badge class, website link normalisation,
  password mask and reveal toggle, and the conditional link and notes lines;
- the add and edit modals: six form fields and a loading flag, the sixteen
  character password generator (with the random draw as an oracle of
  indices), the edit modal's seeding from a credential, and submission with
  the backend outcome as a parameter.

Backend calls are recorded in a `requests` log with their payloads, calls on a
modal's parent callbacks in a `callbacks` log, and toasts in a `notices` log.
Each event handler is one atomic method.

Files: `strings.dfy` (ASCII case, `includes`, `startsWith`), `vault.dfy`
(credential row, form, requests, outcomes), `search.dfy` (the filter),
`dashboard.dfy`, `credential_card.dfy`, `password_gen.dfy`, `add_modal.dfy`,
`edit_modal.dfy`.

The password character set is taken from the literal in both modals. It has
88 distinct characters.

## Model

| member | source | states |
|---|---|---|
| Strings.Lower | src/pages/Dashboard.tsx:105-107 | `toLowerCase` on ASCII: same length; each character is lower-cased and nothing else changes |
| Strings.Upper | src/pages/Dashboard.tsx:105-107 | upper-casing on ASCII, used to state that letter case of the term does not matter: same length, each character upper-cased |
| Strings.LowerIdempotent | src/pages/Dashboard.tsx:105-107 | lower-casing an already lower-cased string changes nothing |
| Strings.LowerOfUpper | src/pages/Dashboard.tsx:105-107 | lower-casing erases any earlier upper-casing |
| Strings.ContainsEmpty | src/pages/Dashboard.tsx:105 | every string includes the empty string |
| Search.Filter | src/pages/Dashboard.tsx:104-108 | the result is no longer than the list; every kept credential is in the list and matches; every credential in the list that matches is kept |
| Search.KeptIncreasing | src/pages/Dashboard.tsx:104 | the kept positions are valid positions in strictly increasing order |
| Search.KeptExactlyMatching | src/pages/Dashboard.tsx:104-108 | a position is kept if and only if its credential's title, website or username contains the term, case-insensitively |
| Search.FilterAtKept | src/pages/Dashboard.tsx:104 | the k-th filtered credential is the credential at the k-th kept position |
| Search.FilterSelectsMatchingPositions | src/pages/Dashboard.tsx:104-108 | the filtered list is the order-preserving subsequence made of exactly the matching positions |
| Search.EmptyTermKeepsAll | src/pages/Dashboard.tsx:104-108 | an empty search term returns the whole list unchanged |
| Search.FilterIgnoresTermCase | src/pages/Dashboard.tsx:105-107 | two terms with the same lower-case form give the same result |
| Search.FilterIgnoresLetterCase | src/pages/Dashboard.tsx:105-107 | the upper-cased or lower-cased term gives the same result as the term itself |
| Search.MatchIgnoresOtherColumns | src/pages/Dashboard.tsx:105-107 | only title, website and username decide a match; password, notes, category, id and timestamp do not |
| DashboardPage.Render | src/pages/Dashboard.tsx:110-184 | loading shows the loading screen; otherwise the empty state shows exactly when the filtered list is empty, and the grid shows the filtered list; the empty state says "No credentials match your search" exactly when the term is non-empty and offers the add button exactly when it is empty |
| DashboardPage.EmptySearchShowsAll | src/pages/Dashboard.tsx:159-183 | with an empty search box a non-empty list is shown whole, in order |
| DashboardPage.Dashboard.constructor | src/pages/Dashboard.tsx:24-29 | initial state: empty list, empty term, add modal closed, loading |
| DashboardPage.Dashboard.Filtered | src/pages/Dashboard.tsx:104-108 | the shown list is no longer than the stored list and holds a stored credential exactly when it matches the term |
| DashboardPage.Dashboard.CurrentView | src/pages/Dashboard.tsx:110-184 | the page shows the loading screen exactly while loading; otherwise the empty state exactly when the filtered list is empty, with the no-match message exactly when the term is non-empty and the add button exactly when it is empty; the grid shows the filtered list |
| DashboardPage.Dashboard.FetchCredentials | src/pages/Dashboard.tsx:55-73 | one select is issued; loading ends false in every outcome; rows replace the list, null data gives the empty list; on error the list is unchanged and an error toast carries the message |
| DashboardPage.Dashboard.HandleDelete | src/pages/Dashboard.tsx:80-102 | one delete by id; on failure the list and loading flag are unchanged, an error toast carries the message and no refetch is issued; on success a toast and then a full refetch, whose result decides the list |
| DashboardPage.Dashboard.SetSearchTerm | src/pages/Dashboard.tsx:153 | the search term becomes the typed value |
| DashboardPage.Dashboard.SetModalOpen | src/pages/Dashboard.tsx:136 | the add modal's visibility becomes the requested value |
| DashboardPage.FailedDeleteKeepsView | src/pages/Dashboard.tsx:95-101 | a failed delete leaves what the page shows unchanged |
| PasswordGen.CharsetSize | src/components/EditCredentialModal.tsx:50 | the character set literal has 88 characters |
| PasswordGen.GeneratePassword | src/components/AddCredentialModal.tsx:29-34 | the password has exactly 16 characters, the k-th being the charset character at the k-th drawn index, so every character is in the charset |
| Card.CategoryColorAsWritten | src/components/CredentialCard.tsx:35-43 | the lookup as JavaScript evaluates it: the listed class for the four categories, and the general class for any other key that Object.prototype does not answer |
| Card.InheritedKeyEscapesFallback | src/components/CredentialCard.tsx:42 | for the category "constructor" the lookup as written yields a function, not a class string |
| Card.CategoryColor | src/components/CredentialCard.tsx:35-43 | the listed class for social, work, finance and general; the general class for any other category |
| Card.CategoryColorMatchesAsWritten | src/components/CredentialCard.tsx:42 | outside the inherited keys, the intended lookup and the lookup as written agree |
| Card.WebsiteHref | src/components/CredentialCard.tsx:80 | every href starts with "http"; a website starting with "http" is used unchanged; any other gets "https://" in front |
| Card.WebsiteHrefIdempotent | src/components/CredentialCard.tsx:80 | normalising an href a second time changes nothing |
| Card.PasswordText | src/components/CredentialCard.tsx:108-110 | shown: the password itself; hidden: the fixed mask of 8 bullets |
| Card.MaskHidesPassword | src/components/CredentialCard.tsx:109 | the hidden display is the same for every password, whatever its length |
| Card.CardFace | src/components/CredentialCard.tsx:47-135 | the link is shown exactly when the website is non-empty, with that text and the href `WebsiteHref` gives for it, so it always starts with "http"; the notes line is shown exactly when notes are non-empty; badge class and password line follow the helpers above |
| Card.CredentialCard.constructor | src/components/CredentialCard.tsx:22-24 | a new card hides the password and has its edit modal closed |
| Card.CredentialCard.View | src/components/CredentialCard.tsx:108-110 | the card shows the password when revealed and the mask otherwise |
| Card.CredentialCard.ReceiveCredential | src/components/CredentialCard.tsx:22 | a re-render of the same card with a refetched credential replaces the credential prop; `showPassword` and `isEditOpen` are kept |
| Card.CredentialCard.TogglePassword | src/components/CredentialCard.tsx:116 | the eye button flips `showPassword` |
| Card.CredentialCard.SetEditOpen | src/components/CredentialCard.tsx:60 | the edit modal's visibility becomes the requested value |
| Card.ToggleTwiceRestores | src/components/CredentialCard.tsx:116 | two presses of the eye button restore the reveal state and what the card shows |
| Vault.With | src/components/AddCredentialModal.tsx:100-165 | an input's change sets its own field to the typed value and leaves the other five fields as they were |
| AddModal.AddCredentialModal.constructor | src/components/AddCredentialModal.tsx:19-25 | five empty fields, category "general", not loading, nothing issued |
| AddModal.AddCredentialModal.Edit | src/components/AddCredentialModal.tsx:100-165 | one field takes the typed or selected value; the category stays one of the four |
| AddModal.AddCredentialModal.GeneratePassword | src/components/AddCredentialModal.tsx:28-40 | the password becomes 16 charset characters, every other field is unchanged, and one toast is shown |
| AddModal.AddCredentialModal.HandleSubmit | src/components/AddCredentialModal.tsx:42-84 | with no user: an error toast "User not authenticated" and no insert; otherwise one insert of the user's id plus the six fields; on success the fields reset to their defaults, close then success are requested once each; on any failure the fields and callbacks are unchanged; loading ends false |
| AddModal.AddCredentialModal.Cancel | src/components/AddCredentialModal.tsx:171 | the cancel button requests close |
| AddModal.AddCredentialModal.Submit | src/components/AddCredentialModal.tsx:93-150 | with an empty title, username or password nothing happens; otherwise the outcome of the submit handler: with no user an error toast and no insert; else one insert of the user id and the six fields, then on success reset fields, close and success callbacks and the success toast, on failure unchanged fields and callbacks and an error toast |
| EditModal.Seed | src/components/EditCredentialModal.tsx:37-46 | title, username and password are copied; an empty website or notes becomes ""; an empty category becomes "general", otherwise each is copied |
| EditModal.SeedRoundTrip | src/components/EditCredentialModal.tsx:39-44 | seeding from a credential with a category gives back exactly its values |
| EditModal.EditCredentialModal.constructor | src/components/EditCredentialModal.tsx:28-46 | initial defaults, then seeded from the credential if the modal starts open |
| EditModal.EditCredentialModal.SeedEffect | src/components/EditCredentialModal.tsx:37-46 | when open the six fields are overwritten from the credential; when closed no field changes |
| EditModal.EditCredentialModal.ReceiveProps | src/components/EditCredentialModal.tsx:37-46 | new props, then the effect: seeded when open, unchanged when closed |
| EditModal.EditCredentialModal.Edit | src/components/EditCredentialModal.tsx:113-178 | one field takes the typed or selected value |
| EditModal.EditCredentialModal.GeneratePassword | src/components/EditCredentialModal.tsx:48-60 | the password becomes 16 charset characters, every other field is unchanged, and one toast is shown |
| EditModal.EditCredentialModal.HandleSubmit | src/components/EditCredentialModal.tsx:62-97 | one update of exactly the six current fields to the row with the credential's id; on success close then success are requested once each; on failure no callback and an error toast; the fields are never reset; loading ends false |
| EditModal.EditCredentialModal.Cancel | src/components/EditCredentialModal.tsx:184 | the cancel button requests close |
| EditModal.EditCredentialModal.Submit | src/components/EditCredentialModal.tsx:106-163 | with an empty title, username or password nothing is sent; otherwise one update of the six fields to the credential id, then on success close and success callbacks and the success toast, on failure no callback and an error toast |

## Findings

| source | as written | input that shows it | evidently intended | confidence | as-written member | corrected member |
|---|---|---|---|---|---|---|
| src/components/CredentialCard.tsx:42 | `colors[category] \|\| colors.general` on an object literal also finds keys inherited from Object.prototype, and these are truthy | category "constructor" (or "toString", "__proto__", ...) gives a function or an object, not a class string | every category outside the four gets the general class | low: not executed; this client only writes the four categories | Card.CategoryColorAsWritten, Card.InheritedKeyEscapesFallback | Card.CategoryColor |

The card, `Card.CardFace`, uses the corrected lookup.

## Left out

- Backend calls (select, insert, update, delete, getUser, session checks, auth-state subscription, sign-out) are replaced by their outcome as a parameter. The session check and redirect on mount (src/pages/Dashboard.tsx:33-53) and logout (75-78) are not modelled, because they consist only of backend calls and navigation.
- Navigation and routing, and all of src/pages/Index.tsx, which holds only a session redirect and static content.
- `Math.random` and its float arithmetic: each draw is an index below the charset length, supplied by an oracle.
- Toast styling, clipboard writes and the rest of rendering; toasts are kept only as a log of title, description and style.
- Async scheduling and the `disabled={loading}` guard: each handler is one atomic step, so a modal's `loading` is false between events.
- Card.CardFace: uses the corrected `CategoryColor`, so for the twelve keys inherited from Object.prototype its badge class is the general class, where src/components/CredentialCard.tsx:52 would interpolate the string form of the inherited function or object into the class attribute (see Findings).
- Unicode case mapping: `toLowerCase`/`toUpperCase` are modelled on ASCII letters only.
- Null columns: every column is a string, as the screens' interfaces declare. In the model the `|| ""` defaults on website and notes are therefore identities, and only the category default fires.
- EditModal.EditCredentialModal.ReceiveProps stands for a render in which `open` or `credential` changed by reference. A re-render with unchanged props, where React skips the effect and keeps the edited fields, is not a `ReceiveProps` call.
- The composition of components (the card's `onUpdate` and the add modal's `onSuccess` both trigger the dashboard's refetch) is shown by the callback logs, not wired between the classes.
