/**
 * The view state of the home page and, for each handler, the state it leaves behind.
 * Every network request is replaced by its outcome, given as an input; each handler
 * is one atomic step from the state before it to the state after its `finally`.
 */
module HomeState {
  import opened Wrappers
  import opened Decimal
  import opened NewsCard

  /** The analysis payload; every field may be missing. */
  datatype Analysis = Analysis(
    score: Option<real>,
    reasoning: Option<string>,
    keyImplications: Option<seq<string>>,
    industryImpact: Option<string>,
    timeline: Option<string>,
    risks: Option<string>,
    opportunities: Option<string>)

  datatype ArchiveDescriptor = ArchiveDescriptor(id: string, displayName: Option<string>)

  /** The body of a successful live-feed response. */
  datatype NewsResponse = NewsResponse(data: seq<NewsItem>, lastUpdated: Option<string>)

  /** The `data` of a successful archive response. */
  datatype ArchiveSnapshot = ArchiveSnapshot(news: seq<NewsItem>, timestamp: string)

  /**
   * How one request ends: a response whose `ok` is false, an Error thrown by `fetch`
   * or by reading the body, a body with `success: false` (its `message`, "" when
   * missing or empty), or a successful body.
   */
  datatype Fetch<T> =
    | HttpError(status: nat)
    | Rejected(message: string)
    | Unsuccessful(message: string)
    | Fetched(payload: T)

  const LatestId: string := "latest"

  const NewsEndpoint: string := "/api/news"
  const ArchiveListEndpoint: string := "/api/archive/list"

  function AnalysisEndpoint(newsId: string): string {
    "/api/news/analyze/" + newsId
  }

  function ArchiveEndpoint(archiveId: string): string {
    "/api/archive/" + archiveId
  }

  const DefaultNewsError: string := "Failed to fetch news"
  const DefaultArchiveError: string := "Failed to fetch archive"
  const HttpErrorPrefix: string := "HTTP error! status: "

  /**
   * The text an unsuccessful request leaves in `error`: the HTTP status after the
   * fixed prefix, the thrown Error's message, or the body's message with `fallback`
   * standing in for a missing one.
   */
  function FailureMessage<T>(outcome: Fetch<T>, fallback: string): (msg: string)
    requires !outcome.Fetched?
    ensures outcome.HttpError? ==>
      |msg| > |HttpErrorPrefix| && msg[..|HttpErrorPrefix|] == HttpErrorPrefix &&
      AllDigits(msg[|HttpErrorPrefix|..]) && ParseNat(msg[|HttpErrorPrefix|..]) == outcome.status
    ensures outcome.Rejected? ==> msg == outcome.message
    ensures outcome.Unsuccessful? && outcome.message != "" ==> msg == outcome.message
    ensures outcome.Unsuccessful? && outcome.message == "" ==> msg == fallback
    ensures fallback != "" ==> (msg == "" <==> outcome.Rejected? && outcome.message == "")
  {
    match outcome
    case HttpError(status) =>
      var digits := NatToString(status);
      ParseNatToString(status);
      assert (HttpErrorPrefix + digits)[|HttpErrorPrefix|..] == digits;
      HttpErrorPrefix + digits
    case Rejected(message) => message
    case Unsuccessful(message) => if message == "" then fallback else message
  }

  /** The twelve state fields of the page (app/page.tsx:60-71). */
  datatype State = State(
    newsData: seq<NewsItem>,
    lastUpdated: string,
    loading: bool,
    error: Option<string>,
    selectedNews: Option<NewsItem>,
    showModal: bool,
    analysis: Option<Analysis>,
    analysisLoading: bool,
    sidebarOpen: bool,
    currentArchive: Option<string>,
    archiveLoading: bool,
    availableArchives: seq<ArchiveDescriptor>)

  /** The state on first render. */
  const Initial: State := State([], "", true, None, None, false, None, false, false, None, false, [])

  /** The modal is open only with an item selected. */
  predicate ModalConsistent(s: State) {
    s.showModal ==> s.selectedNews.Some?
  }

  // ---------------------------------------------------------------- analysis and modal

  /** fetchAnalysis: the analysis is replaced only by a successful response; the spinner always stops. */
  function AnalysisSettled(s: State, outcome: Fetch<Option<Analysis>>): (t: State)
    ensures !t.analysisLoading
    ensures outcome.Fetched? ==> t.analysis == outcome.payload
    ensures !outcome.Fetched? ==> t.analysis == s.analysis
    ensures t.(analysis := s.analysis, analysisLoading := s.analysisLoading) == s
  {
    var t := s.(analysisLoading := true);
    var t := if outcome.Fetched? then t.(analysis := outcome.payload) else t;
    t.(analysisLoading := false)
  }

  /**
   * handleNewsClick: select the item, open the modal, drop the previous analysis, then
   * fetch the new one. A failed fetch therefore leaves no analysis at all.
   */
  function NewsClicked(s: State, news: NewsItem, outcome: Fetch<Option<Analysis>>): (t: State)
    ensures t.selectedNews == Some(news) && t.showModal && !t.analysisLoading
    ensures outcome.Fetched? ==> t.analysis == outcome.payload
    ensures !outcome.Fetched? ==> t.analysis == None
    ensures ModalConsistent(t)
    ensures t.(selectedNews := s.selectedNews, showModal := s.showModal,
               analysis := s.analysis, analysisLoading := s.analysisLoading) == s
  {
    AnalysisSettled(s.(selectedNews := Some(news), showModal := true, analysis := None), outcome)
  }

  /** closeModal: hide the modal and forget both the selection and its analysis. */
  function ModalClosed(s: State): (t: State)
    ensures !t.showModal && t.selectedNews == None && t.analysis == None
    ensures ModalConsistent(t)
    ensures t.(showModal := s.showModal, selectedNews := s.selectedNews, analysis := s.analysis) == s
  {
    s.(showModal := false, selectedNews := None, analysis := None)
  }

  /** Closing an already closed modal changes nothing. */
  lemma ModalClosedIdempotent(s: State)
    ensures ModalClosed(ModalClosed(s)) == ModalClosed(s)
  {
  }

  // ---------------------------------------------------------------- archives and feed

  /** fetchAvailableArchives: a successful list replaces the archive list; nothing else ever changes. */
  function ArchivesSettled(s: State, outcome: Fetch<seq<ArchiveDescriptor>>): (t: State)
    ensures outcome.Fetched? ==> t.availableArchives == outcome.payload
    ensures !outcome.Fetched? ==> t == s
    ensures t.error == s.error
    ensures t.(availableArchives := s.availableArchives) == s
  {
    match outcome
    case Fetched(list) => s.(availableArchives := list)
    case _ => s
  }

  /** Whether switching to `archiveId` succeeds, given the response of the endpoint that id selects. */
  predicate SwitchSucceeds(archiveId: string, live: Fetch<NewsResponse>, archive: Fetch<ArchiveSnapshot>) {
    if archiveId == LatestId then live.Fetched? else archive.Fetched?
  }

  /** The error a failed switch reports. */
  function SwitchError(archiveId: string, live: Fetch<NewsResponse>, archive: Fetch<ArchiveSnapshot>): string
    requires !SwitchSucceeds(archiveId, live, archive)
  {
    if archiveId == LatestId then FailureMessage(live, DefaultNewsError) else FailureMessage(archive, DefaultArchiveError)
  }

  /**
   * fetchArchive: "latest" reloads the live feed and clears the archive marker; any
   * other id loads that snapshot and marks it current. On failure only `error`
   * changes among the data fields. The loading flag is cleared and the sidebar
   * closed whatever happens.
   */
  function ArchiveSwitched(s: State, archiveId: string, live: Fetch<NewsResponse>, archive: Fetch<ArchiveSnapshot>): (t: State)
    ensures !t.archiveLoading && !t.sidebarOpen
    ensures archiveId == LatestId && live.Fetched? ==>
      t.newsData == live.payload.data && t.lastUpdated == live.payload.lastUpdated.GetOr("") &&
      t.currentArchive == None && t.error == s.error
    ensures archiveId != LatestId && archive.Fetched? ==>
      t.newsData == archive.payload.news && t.lastUpdated == archive.payload.timestamp &&
      t.currentArchive == Some(archiveId) && t.error == s.error
    ensures !SwitchSucceeds(archiveId, live, archive) ==>
      t.newsData == s.newsData && t.lastUpdated == s.lastUpdated &&
      t.currentArchive == s.currentArchive && t.error == Some(SwitchError(archiveId, live, archive))
    ensures t.(newsData := s.newsData, lastUpdated := s.lastUpdated, currentArchive := s.currentArchive,
               error := s.error, archiveLoading := s.archiveLoading, sidebarOpen := s.sidebarOpen) == s
  {
    var t := s.(archiveLoading := true);
    var t :=
      if archiveId == LatestId then
        match live
        case Fetched(r) => t.(newsData := r.data, lastUpdated := r.lastUpdated.GetOr(""), currentArchive := None)
        case _ => t.(error := Some(FailureMessage(live, DefaultNewsError)))
      else
        match archive
        case Fetched(a) => t.(newsData := a.news, lastUpdated := a.timestamp, currentArchive := Some(archiveId))
        case _ => t.(error := Some(FailureMessage(archive, DefaultArchiveError)));
    t.(archiveLoading := false, sidebarOpen := false)
  }

  /** The initial fetchNews: the feed and its time on success, the error otherwise; loading always ends. */
  function NewsSettled(s: State, outcome: Fetch<NewsResponse>): (t: State)
    ensures !t.loading
    ensures outcome.Fetched? ==>
      t.newsData == outcome.payload.data && t.lastUpdated == outcome.payload.lastUpdated.GetOr("") &&
      t.error == s.error
    ensures !outcome.Fetched? ==>
      t.newsData == s.newsData && t.lastUpdated == s.lastUpdated &&
      t.error == Some(FailureMessage(outcome, DefaultNewsError))
    ensures t.(newsData := s.newsData, lastUpdated := s.lastUpdated, error := s.error, loading := s.loading) == s
  {
    var t := s.(loading := true);
    var t :=
      match outcome
      case Fetched(r) => t.(newsData := r.data, lastUpdated := r.lastUpdated.GetOr(""))
      case _ => t.(error := Some(FailureMessage(outcome, DefaultNewsError)));
    t.(loading := false)
  }

  /** The two requests of the mount effect touch disjoint fields, so they may settle in either order. */
  lemma SettleOrderIrrelevant(s: State, news: Fetch<NewsResponse>, archives: Fetch<seq<ArchiveDescriptor>>)
    ensures ArchivesSettled(NewsSettled(s, news), archives) == NewsSettled(ArchivesSettled(s, archives), news)
  {
  }

  /** The state after the mount effect's two requests have settled. */
  function Mounted(s: State, news: Fetch<NewsResponse>, archives: Fetch<seq<ArchiveDescriptor>>): (t: State)
    ensures !t.loading
    ensures archives.Fetched? ==> t.availableArchives == archives.payload
    ensures !archives.Fetched? ==> t.availableArchives == s.availableArchives
    ensures news.Fetched? ==>
      t.newsData == news.payload.data && t.lastUpdated == news.payload.lastUpdated.GetOr("") &&
      t.error == s.error
    ensures !news.Fetched? ==>
      t.newsData == s.newsData && t.lastUpdated == s.lastUpdated &&
      t.error == Some(FailureMessage(news, DefaultNewsError))
    ensures t.(newsData := s.newsData, lastUpdated := s.lastUpdated, error := s.error,
               loading := s.loading, availableArchives := s.availableArchives) == s
  {
    ArchivesSettled(NewsSettled(s, news), archives)
  }

  // ---------------------------------------------------------------- sidebar

  /** The menu button: flip the sidebar. */
  function SidebarToggled(s: State): (t: State)
    ensures t.sidebarOpen != s.sidebarOpen
    ensures t.(sidebarOpen := s.sidebarOpen) == s
  {
    s.(sidebarOpen := !s.sidebarOpen)
  }

  /** The sidebar's close button. */
  function SidebarClosed(s: State): (t: State)
    ensures !t.sidebarOpen
    ensures t.(sidebarOpen := s.sidebarOpen) == s
  {
    s.(sidebarOpen := false)
  }

  lemma SidebarToggledTwice(s: State)
    ensures SidebarToggled(SidebarToggled(s)) == s
  {
  }

  // ---------------------------------------------------------------- what is shown

  datatype Screen = LoadingScreen | ErrorScreen(message: string) | MainScreen

  /** The page shows the spinner while loading, then the error screen for a non-empty error, else the feed. */
  function ScreenOf(s: State): (screen: Screen)
    ensures screen == LoadingScreen <==> s.loading
    ensures screen.ErrorScreen? ==> s.error == Some(screen.message) && screen.message != ""
    ensures !s.loading && s.error.Some? && s.error.value != "" ==> screen == ErrorScreen(s.error.value)
    ensures screen == MainScreen <==> !s.loading && (s.error == None || s.error == Some(""))
  {
    if s.loading then LoadingScreen
    else if s.error.Some? && s.error.value != "" then ErrorScreen(s.error.value)
    else MainScreen
  }

  /** The modal is drawn only when it is open and an item is selected. */
  predicate ModalVisible(s: State) {
    s.showModal && s.selectedNews.Some?
  }

  lemma ModalVisibleWhenOpen(s: State)
    requires ModalConsistent(s)
    ensures ModalVisible(s) <==> s.showModal
  {
  }

  datatype Panel = AnalysisLoadingPanel | AnalysisPanel(analysis: Analysis) | ComingSoonPanel

  /** The "Why This Matters" panel of the modal. */
  function PanelOf(s: State): (panel: Panel)
    ensures panel == AnalysisLoadingPanel <==> s.analysisLoading
    ensures panel == ComingSoonPanel <==> !s.analysisLoading && s.analysis == None
    ensures panel.AnalysisPanel? <==> !s.analysisLoading && s.analysis.Some?
    ensures panel.AnalysisPanel? ==> s.analysis == Some(panel.analysis)
  {
    if s.analysisLoading then AnalysisLoadingPanel
    else if s.analysis.Some? then AnalysisPanel(s.analysis.value)
    else ComingSoonPanel
  }

  /** A failed analysis request shows the open modal with the "coming soon" placeholder, never an older analysis. */
  lemma FailedAnalysisShowsPlaceholder(s: State, news: NewsItem, outcome: Fetch<Option<Analysis>>)
    requires !outcome.Fetched?
    ensures ModalVisible(NewsClicked(s, news, outcome))
    ensures PanelOf(NewsClicked(s, news, outcome)) == ComingSoonPanel
  {
  }

  /**
   * A failed first load leaves the feed empty and shows its error screen, except
   * that an Error with an empty message leaves the page on the (empty) feed.
   */
  lemma FailedMountShowsError(news: Fetch<NewsResponse>, archives: Fetch<seq<ArchiveDescriptor>>)
    requires !news.Fetched?
    ensures Mounted(Initial, news, archives).newsData == []
    ensures var msg := FailureMessage(news, DefaultNewsError);
            ScreenOf(Mounted(Initial, news, archives)) == if msg != "" then ErrorScreen(msg) else MainScreen
  {
  }

  /** A `success: false` body with message "boom" ends on the error screen showing "boom". */
  lemma FailedMountShowsMessage(archives: Fetch<seq<ArchiveDescriptor>>)
    ensures ScreenOf(Mounted(Initial, Unsuccessful("boom"), archives)) == ErrorScreen("boom")
  {
    FailedMountShowsError(Unsuccessful("boom"), archives);
  }

  /** A failed archive-list request leaves the list empty (the sidebar's placeholder) and does not change the screen. */
  lemma FailedArchiveListIsHarmless(news: Fetch<NewsResponse>, archives: Fetch<seq<ArchiveDescriptor>>)
    requires !archives.Fetched?
    ensures Mounted(Initial, news, archives).availableArchives == []
    ensures ScreenOf(Mounted(Initial, news, archives)) == ScreenOf(NewsSettled(Initial, news))
  {
  }

  /**
   * A failed archive switch replaces the whole page by the error screen (the page
   * tests `error` before drawing the feed), and no later switch clears it.
   */
  lemma FailedSwitchShowsError(s: State, archiveId: string, live: Fetch<NewsResponse>, archive: Fetch<ArchiveSnapshot>)
    requires !s.loading && !SwitchSucceeds(archiveId, live, archive)
    requires SwitchError(archiveId, live, archive) != ""
    ensures ScreenOf(ArchiveSwitched(s, archiveId, live, archive)) == ErrorScreen(SwitchError(archiveId, live, archive))
  {
  }

  lemma SwitchKeepsError(s: State, archiveId: string, live: Fetch<NewsResponse>, archive: Fetch<ArchiveSnapshot>)
    requires s.error.Some?
    ensures ArchiveSwitched(s, archiveId, live, archive).error.Some?
  {
  }

  // ---------------------------------------------------------------- the card grid

  /**
   * The grid as intended (the corrected grid): card `i` is ranked `i + 1` and passes
   * item `i` to the click handler. The page as written passes no index to the card,
   * see RankLabelsAsWritten.
   */
  function Cards(newsData: seq<NewsItem>): (cards: seq<Card>)
    ensures |cards| == |newsData|
    ensures forall i :: 0 <= i < |newsData| ==> cards[i].detailsArgument == newsData[i]
    ensures forall i :: 0 <= i < |newsData| ==> cards[i].rankLabel == RankLabel(i)
  {
    seq(|newsData|, i requires 0 <= i < |newsData| => Render(newsData[i], i))
  }

  /** Distinct cards of the grid show distinct ranks. */
  lemma CardRanksDistinct(newsData: seq<NewsItem>, i: nat, j: nat)
    requires i < |newsData| && j < |newsData| && i != j
    ensures Cards(newsData)[i].rankLabel != Cards(newsData)[j].rankLabel
  {
    var a, b := RankLabel(i), RankLabel(j);
    assert ParseNat(a[1..]) == i + 1 && ParseNat(b[1..]) == j + 1;
  }

  /**
   * The rank labels as the page draws them: the page passes no `index`, so the card
   * computes `undefined + 1`, which is NaN, for every card.
   */
  function RankLabelsAsWritten(newsData: seq<NewsItem>): (labels: seq<string>)
    ensures |labels| == |newsData|
  {
    seq(|newsData|, i => "#NaN")
  }

  /** As written, every card carries the same rank, which is not a number. */
  lemma RankLabelsAsWrittenCollide(newsData: seq<NewsItem>, i: nat, j: nat)
    requires i < |newsData| && j < |newsData|
    ensures RankLabelsAsWritten(newsData)[i] == RankLabelsAsWritten(newsData)[j]
    ensures !AllDigits(RankLabelsAsWritten(newsData)[i][1..])
  {
    assert !IsDigit(RankLabelsAsWritten(newsData)[i][1]);
  }
}
