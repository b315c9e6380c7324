/** The data the screens share: the credential row, the six-field form both
    modals hold, and the backend interactions, reduced to the requests issued
    and the outcomes received. */
module Vault {

  datatype Option<T> = None | Some(value: T)

  /** One row of the "credentials" table as the dashboard reads it. Every
      column is a string, as the screens' interfaces declare. */
  datatype Credential = Credential(
    id: string,
    title: string,
    username: string,
    password: string,
    website: string,
    notes: string,
    category: string,
    createdAt: string)

  const DefaultCategory: string := "general"

  /** The values the category select offers. */
  const Categories: set<string> := {"general", "social", "work", "finance"}

  /** The six form fields of the add and edit modals. */
  datatype Form = Form(
    title: string,
    username: string,
    password: string,
    website: string,
    notes: string,
    category: string)

  datatype Field = Title | Username | Password | Website | Notes | Category

  /** Five empty text fields and the default category. */
  const InitialForm: Form := Form("", "", "", "", "", DefaultCategory)

  function Get(f: Form, field: Field): string {
    match field
    case Title => f.title
    case Username => f.username
    case Password => f.password
    case Website => f.website
    case Notes => f.notes
    case Category => f.category
  }

  /** One input's `onChange`: the named field takes the new value. */
  function With(f: Form, field: Field, value: string): (g: Form)
    ensures Get(g, field) == value
    ensures forall other :: other != field ==> Get(g, other) == Get(f, other)
  {
    match field
    case Title => f.(title := value)
    case Username => f.(username := value)
    case Password => f.(password := value)
    case Website => f.(website := value)
    case Notes => f.(notes := value)
    case Category => f.(category := value)
  }

  /** The `required` inputs (title, username, password) are all non-empty. */
  predicate RequiredFilled(f: Form) {
    f.title != "" && f.username != "" && f.password != ""
  }

  /** A call made to the backend, with its payload. */
  datatype Request =
    | SelectAll                                // select * order by created_at desc
    | DeleteRow(id: string)                    // delete where id = ...
    | GetUser                                  // auth.getUser()
    | InsertRow(userId: string, fields: Form)  // insert { user_id, ...fields }
    | UpdateRow(id: string, fields: Form)      // update fields where id = ...

  /** What a mutating backend call returned: no error, or an error message. */
  datatype Outcome = Ok | Err(message: string)

  /** What the list query returned: data (possibly null), or an error message. */
  datatype FetchResult = Fetched(data: Option<seq<Credential>>) | FetchFailed(message: string)

  /** A toast. */
  datatype Notice = Notice(title: string, description: string, destructive: bool)

  /** The toast both modals show after generating a password. */
  const GeneratedNotice: Notice := Notice("Password generated!", "A secure password has been created for you.", false)

  /** A call a modal makes on its parent's callbacks. */
  datatype Callback = OpenChange(open: bool) | SuccessCalled
}
