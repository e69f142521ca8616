/**
 * The home page component as an object: its state hooks are fields and each handler
 * is a method that assigns them in the order of the component's try/catch/finally.
 * Every method's new state is the matching transition of HomeState applied to the
 * old state, so the properties proved there hold of the object.
 */
module HomePage {
  import opened Wrappers
  import opened NewsCard
  import opened HomeState

  class Home {
    var newsData: seq<NewsItem>
    var lastUpdated: string
    var loading: bool
    var error: Option<string>
    var selectedNews: Option<NewsItem>
    var showModal: bool
    var analysis: Option<Analysis>
    var analysisLoading: bool
    var sidebarOpen: bool
    var currentArchive: Option<string>
    var archiveLoading: bool
    var availableArchives: seq<ArchiveDescriptor>

    /** All twelve fields as one value. */
    function Snapshot(): State
      reads this
    {
      State(newsData, lastUpdated, loading, error, selectedNews, showModal, analysis,
            analysisLoading, sidebarOpen, currentArchive, archiveLoading, availableArchives)
    }

    predicate Valid()
      reads this
    {
      ModalConsistent(Snapshot())
    }

    /** The initial values of the state hooks. */
    constructor ()
      ensures Snapshot() == Initial && Valid()
    {
      newsData := [];
      lastUpdated := "";
      loading := true;
      error := None;
      selectedNews := None;
      showModal := false;
      analysis := None;
      analysisLoading := false;
      sidebarOpen := false;
      currentArchive := None;
      archiveLoading := false;
      availableArchives := [];
    }

    /** fetchAnalysis(newsId), whose request ends with `outcome`. */
    method FetchAnalysis(newsId: string, outcome: Fetch<Option<Analysis>>) returns (endpoint: string)
      requires Valid()
      modifies this
      ensures Valid()
      ensures endpoint == AnalysisEndpoint(newsId)
      ensures Snapshot() == AnalysisSettled(old(Snapshot()), outcome)
    {
      analysisLoading := true;
      endpoint := AnalysisEndpoint(newsId);
      if outcome.Fetched? {
        analysis := outcome.payload;
      }
      analysisLoading := false;
    }

    /** handleNewsClick(news): open the modal on `news`, then fetch its analysis. */
    method HandleNewsClick(news: NewsItem, outcome: Fetch<Option<Analysis>>) returns (endpoint: string)
      modifies this
      ensures Valid()
      ensures endpoint == AnalysisEndpoint(news.id)
      ensures Snapshot() == NewsClicked(old(Snapshot()), news, outcome)
    {
      selectedNews := Some(news);
      showModal := true;
      analysis := None;
      endpoint := FetchAnalysis(news.id, outcome);
    }

    /** The "details" affordance of card `index` of the grid. */
    method ClickDetails(index: nat, outcome: Fetch<Option<Analysis>>) returns (endpoint: string)
      requires index < |newsData|
      modifies this
      ensures Valid()
      ensures endpoint == AnalysisEndpoint(old(newsData)[index].id)
      ensures Snapshot() == NewsClicked(old(Snapshot()), old(newsData)[index], outcome)
    {
      var card := Cards(newsData)[index];
      endpoint := HandleNewsClick(card.detailsArgument, outcome);
    }

    method CloseModal()
      modifies this
      ensures Valid()
      ensures Snapshot() == ModalClosed(old(Snapshot()))
    {
      showModal := false;
      selectedNews := None;
      analysis := None;
    }

    /** fetchAvailableArchives(), whose request ends with `outcome`; failures are only logged. */
    method FetchAvailableArchives(outcome: Fetch<seq<ArchiveDescriptor>>) returns (endpoint: string)
      requires Valid()
      modifies this
      ensures Valid()
      ensures endpoint == ArchiveListEndpoint
      ensures Snapshot() == ArchivesSettled(old(Snapshot()), outcome)
    {
      endpoint := ArchiveListEndpoint;
      if outcome.Fetched? {
        availableArchives := outcome.payload;
      }
    }

    /**
     * fetchArchive(archiveId). `live` is how a request for the live feed ends and
     * `archive` how a request for the snapshot ends; the id decides which is issued.
     */
    method FetchArchive(archiveId: string, live: Fetch<NewsResponse>, archive: Fetch<ArchiveSnapshot>)
      returns (endpoint: string)
      requires Valid()
      modifies this
      ensures Valid()
      ensures endpoint == if archiveId == LatestId then NewsEndpoint else ArchiveEndpoint(archiveId)
      ensures Snapshot() == ArchiveSwitched(old(Snapshot()), archiveId, live, archive)
    {
      archiveLoading := true;
      var thrown: Option<string> := None;
      if archiveId == LatestId {
        endpoint := NewsEndpoint;
        if live.Fetched? {
          newsData := live.payload.data;
          lastUpdated := live.payload.lastUpdated.GetOr("");
          currentArchive := None;
        } else {
          thrown := Some(FailureMessage(live, DefaultNewsError));
        }
      } else {
        endpoint := ArchiveEndpoint(archiveId);
        if archive.Fetched? {
          newsData := archive.payload.news;
          lastUpdated := archive.payload.timestamp;
          currentArchive := Some(archiveId);
        } else {
          thrown := Some(FailureMessage(archive, DefaultArchiveError));
        }
      }
      // catch
      if thrown.Some? {
        error := thrown;
      }
      // finally
      archiveLoading := false;
      sidebarOpen := false;
    }

    /** The initial fetchNews, whose request ends with `outcome`. */
    method FetchNews(outcome: Fetch<NewsResponse>) returns (endpoint: string)
      requires Valid()
      modifies this
      ensures Valid()
      ensures endpoint == NewsEndpoint
      ensures Snapshot() == NewsSettled(old(Snapshot()), outcome)
    {
      loading := true;
      endpoint := NewsEndpoint;
      if outcome.Fetched? {
        newsData := outcome.payload.data;
        lastUpdated := outcome.payload.lastUpdated.GetOr("");
      } else {
        error := Some(FailureMessage(outcome, DefaultNewsError));
      }
      loading := false;
    }

    /**
     * The mount effect: fetchNews and fetchAvailableArchives are both started;
     * `archivesFirst` says which of the two settles first.
     */
    method Mount(news: Fetch<NewsResponse>, archives: Fetch<seq<ArchiveDescriptor>>, archivesFirst: bool)
      returns (newsEndpoint: string, archivesEndpoint: string)
      requires Valid()
      modifies this
      ensures Valid()
      ensures newsEndpoint == NewsEndpoint && archivesEndpoint == ArchiveListEndpoint
      ensures Snapshot() == Mounted(old(Snapshot()), news, archives)
    {
      if archivesFirst {
        archivesEndpoint := FetchAvailableArchives(archives);
        newsEndpoint := FetchNews(news);
        SettleOrderIrrelevant(old(Snapshot()), news, archives);
      } else {
        newsEndpoint := FetchNews(news);
        archivesEndpoint := FetchAvailableArchives(archives);
      }
    }

    /** The menu button. */
    method ToggleSidebar()
      modifies this
      ensures Snapshot() == SidebarToggled(old(Snapshot()))
      ensures old(Valid()) ==> Valid()
    {
      sidebarOpen := !sidebarOpen;
    }

    /** The sidebar's close button. */
    method CloseSidebar()
      modifies this
      ensures Snapshot() == SidebarClosed(old(Snapshot()))
      ensures old(Valid()) ==> Valid()
    {
      sidebarOpen := false;
    }
  }

  /**
   * A worked example of a session: a successful first load, a switch to an archive, then back to the
   * live feed. The live feed is requested again and the archive marker is cleared.
   */
  method BackToLatest(feed: NewsResponse, snapshot: ArchiveSnapshot, id: string, later: Fetch<ArchiveSnapshot>)
    requires id != LatestId
  {
    var home := new Home();
    var _, _ := home.Mount(Fetched(feed), HttpError(500), false);
    assert home.availableArchives == [];
    var _ := home.FetchArchive(id, HttpError(500), Fetched(snapshot));
    assert home.currentArchive == Some(id) && home.newsData == snapshot.news;
    var endpoint := home.FetchArchive(LatestId, Fetched(feed), later);
    assert endpoint == NewsEndpoint;
    assert home.currentArchive == None && home.newsData == feed.data && !home.sidebarOpen;
  }
}
