/** The dashboard page: the credential list with its loading flag, the search
    term, the add-modal visibility, and what the page shows for them. */
module DashboardPage {
  import opened Vault
  import opened Search

  const NoMatchMessage: string := "No credentials match your search"
  const FirstCredentialMessage: string := "Start by adding your first credential"
  const EmptyHeading: string := "No credentials yet"

  /** What the page body shows. */
  datatype View =
    | LoadingView                                              // "Loading your vault..."
    | EmptyView(heading: string, message: string, offersAdd: bool)
    | GridView(cards: seq<Credential>)                           // one card per credential

  /** The page body for a given state: the loading screen, the empty state, or
      the grid of filtered credentials. */
  function Render(loading: bool, credentials: seq<Credential>, searchTerm: string): (v: View)
    ensures loading <==> v.LoadingView?
    ensures !loading ==> (v.EmptyView? <==> Filter(credentials, searchTerm) == [])
    ensures v.GridView? ==> v.cards == Filter(credentials, searchTerm) && |v.cards| > 0
    ensures v.EmptyView? ==> v.heading == EmptyHeading
    ensures v.EmptyView? ==> (v.message == NoMatchMessage <==> searchTerm != "")
    ensures v.EmptyView? ==> (v.message == FirstCredentialMessage <==> searchTerm == "")
    ensures v.EmptyView? ==> (v.offersAdd <==> searchTerm == "")
  {
    if loading then LoadingView
    else
      var shown := Filter(credentials, searchTerm);
      if |shown| == 0 then
        EmptyView(EmptyHeading, if searchTerm != "" then NoMatchMessage else FirstCredentialMessage, searchTerm == "")
      else GridView(shown)
  }

  /** With an empty search box the grid shows the whole list, in order. */
  lemma EmptySearchShowsAll(credentials: seq<Credential>)
    requires credentials != []
    ensures Render(false, credentials, "") == GridView(credentials)
  {
    EmptyTermKeepsAll(credentials);
  }

  class Dashboard {
    var credentials: seq<Credential>
    var searchTerm: string
    var isModalOpen: bool
    var loading: bool
    /** Backend calls issued, oldest first. */
    var requests: seq<Request>
    /** Toasts shown, oldest first. */
    var notices: seq<Notice>

    /** The state before the session check: empty list, loading. */
    constructor ()
      ensures credentials == [] && searchTerm == "" && !isModalOpen && loading
      ensures requests == [] && notices == []
    {
      credentials, searchTerm, isModalOpen, loading := [], "", false, true;
      requests, notices := [], [];
    }

    /** `filteredCredentials`. */
    function Filtered(): (r: seq<Credential>)
      reads this
      ensures |r| <= |credentials|
      ensures forall c :: c in credentials ==> (c in r <==> Matches(c, searchTerm))
    {
      Filter(credentials, searchTerm)
    }

    /** What the page shows now. */
    function CurrentView(): (v: View)
      reads this
      ensures loading <==> v.LoadingView?
      ensures !loading ==> (v.EmptyView? <==> Filtered() == [])
      ensures v.GridView? ==> v.cards == Filtered()
      ensures v.EmptyView? ==> v.heading == EmptyHeading
      ensures v.EmptyView? ==> (v.message == NoMatchMessage <==> searchTerm != "")
      ensures v.EmptyView? ==> (v.offersAdd <==> searchTerm == "")
    {
      Render(loading, credentials, searchTerm)
    }

    /** `fetchCredentials`: one select; the rows replace the list (null data
        gives the empty list); on error the list stays and a toast carries
        the message; loading always ends false. */
    method FetchCredentials(result: FetchResult)
      modifies this
      ensures requests == old(requests) + [SelectAll]
      ensures !loading
      ensures result.Fetched? && result.data.Some? ==> credentials == result.data.value
      ensures result.Fetched? && result.data.None? ==> credentials == []
      ensures result.Fetched? ==> notices == old(notices)
      ensures result.FetchFailed? ==> credentials == old(credentials)
      ensures result.FetchFailed? ==>
        notices == old(notices) + [Notice("Error fetching credentials", result.message, true)]
      ensures searchTerm == old(searchTerm) && isModalOpen == old(isModalOpen)
    {
      requests := requests + [SelectAll];
      match result {
        case Fetched(data) =>
          credentials := if data.Some? then data.value else [];
        case FetchFailed(message) =>
          notices := notices + [Notice("Error fetching credentials", message, true)];
      }
      loading := false;
    }

    /** `handleDelete(id)`: one delete; on success a toast and a full refetch
        (whose own result is `refetch`); on failure an error toast, no
        refetch, and the list untouched. */
    method HandleDelete(id: string, deleted: Outcome, refetch: FetchResult)
      modifies this
      ensures deleted.Err? ==> requests == old(requests) + [DeleteRow(id)]
      ensures deleted.Err? ==> credentials == old(credentials) && loading == old(loading)
      ensures deleted.Err? ==>
        notices == old(notices) + [Notice("Error deleting credential", deleted.message, true)]
      ensures deleted.Ok? ==> requests == old(requests) + [DeleteRow(id), SelectAll]
      ensures deleted.Ok? ==> !loading
      ensures deleted.Ok? && refetch.Fetched? ==>
        credentials == (if refetch.data.Some? then refetch.data.value else [])
      ensures deleted.Ok? && refetch.FetchFailed? ==> credentials == old(credentials)
      ensures deleted.Ok? && refetch.Fetched? ==>
        notices == old(notices) + [Notice("Credential deleted", "The credential has been removed.", false)]
      ensures deleted.Ok? && refetch.FetchFailed? ==>
        notices == old(notices) + [Notice("Credential deleted", "The credential has been removed.", false),
                                   Notice("Error fetching credentials", refetch.message, true)]
      ensures searchTerm == old(searchTerm) && isModalOpen == old(isModalOpen)
    {
      requests := requests + [DeleteRow(id)];
      match deleted {
        case Err(message) =>
          notices := notices + [Notice("Error deleting credential", message, true)];
        case Ok =>
          notices := notices + [Notice("Credential deleted", "The credential has been removed.", false)];
          FetchCredentials(refetch);
      }
    }

    /** The search input's `onChange`. */
    method SetSearchTerm(term: string)
      modifies this`searchTerm
      ensures searchTerm == term
    {
      searchTerm := term;
    }

    /** The add button and the add modal's `onOpenChange`. */
    method SetModalOpen(open: bool)
      modifies this`isModalOpen
      ensures isModalOpen == open
    {
      isModalOpen := open;
    }
  }

  /** A failed delete changes nothing the page shows. */
  method FailedDeleteKeepsView(page: Dashboard, id: string, message: string, refetch: FetchResult)
    modifies page
    ensures page.CurrentView() == old(page.CurrentView())
  {
    page.HandleDelete(id, Err(message), refetch);
  }
}
