/** The application shell: which page is shown (landing, login, app), which tab of the app
    is open, the session's donations and the impact counters. */
module App {
  import opened Types
  import MatchingView
  import DonationForm

  /** The counters the dashboard starts from. */
  const InitialStats: ImpactStats := ImpactStats(
    totalMealsSaved := 12450,
    co2ReducedKg := 8500.0,
    activeDonors := 42,
    communitiesServed := 18)

  datatype ViewState = Landing | Login | InApp

  /** What the main area of the app shows. */
  datatype Screen = DashboardScreen | DonateScreen | LogisticsScreen | BlockchainScreen

  /** What the whole window shows: the landing page (with the wallet dialog over it while
      logging in) or the app with its navigation bar and one screen. */
  datatype Page = LandingPage(withLogin: bool) | AppPage(content: Screen)

  /** `renderContent`: the tab names the four screens; any other tab shows the dashboard. */
  function RenderContent(tab: string): (r: Screen)
    ensures r == DonateScreen <==> tab == "donate"
    ensures r == LogisticsScreen <==> tab == "logistics"
    ensures r == BlockchainScreen <==> tab == "blockchain"
    ensures r == DashboardScreen <==> tab !in {"donate", "logistics", "blockchain"}
  {
    match tab
    case "dashboard" => DashboardScreen
    case "donate" => DonateScreen
    case "logistics" => LogisticsScreen
    case "blockchain" => BlockchainScreen
    case _ => DashboardScreen
  }

  function RenderPage(v: ViewState, tab: string): (r: Page)
    ensures r.LandingPage? <==> v != InApp
    ensures r.LandingPage? ==> (r.withLogin <==> v == Login)
    ensures r.AppPage? ==> r.content == RenderContent(tab)
  {
    match v
    case Landing => LandingPage(false)
    case Login => LandingPage(true)
    case InApp => AppPage(RenderContent(tab))
  }

  // ---------------------------------------------------------------------------
  // Impact counters

  /** The optimistic counter update for one donation: about two meals per kg, rounded
      down, and 2.5 kg of CO2 per kg. */
  function StatsAfterDonation(stats: ImpactStats, quantityKg: real): (r: ImpactStats)
    ensures r.activeDonors == stats.activeDonors && r.communitiesServed == stats.communitiesServed
    ensures r.co2ReducedKg - stats.co2ReducedKg == 2.5 * quantityKg
    ensures var meals := r.totalMealsSaved - stats.totalMealsSaved;
            meals as real <= 2.0 * quantityKg < meals as real + 1.0
  {
    stats.(totalMealsSaved := stats.totalMealsSaved + (quantityKg * 2.0).Floor,
           co2ReducedKg := stats.co2ReducedKg + quantityKg * 2.5)
  }

  /** Adding a donation of non-negative quantity never lowers a counter. */
  lemma StatsMonotone(stats: ImpactStats, quantityKg: real)
    requires quantityKg >= 0.0
    ensures StatsAfterDonation(stats, quantityKg).totalMealsSaved >= stats.totalMealsSaved
    ensures StatsAfterDonation(stats, quantityKg).co2ReducedKg >= stats.co2ReducedKg
  {
  }

  /** The counters for a donation list whose head is the newest donation. */
  function StatsFor(donations: seq<DonationItem>): ImpactStats {
    if donations == [] then InitialStats
    else StatsAfterDonation(StatsFor(donations[1..]), donations[0].quantityKg)
  }

  function TotalQuantity(donations: seq<DonationItem>): real {
    if donations == [] then 0.0 else donations[0].quantityKg + TotalQuantity(donations[1..])
  }

  /** Over a whole session the CO2 counter is exactly linear in the donated kilograms, the
      meal counter is within one meal per donation below two meals per kg, and the donor and
      community counters never move. */
  lemma {:induction false} StatsForSession(donations: seq<DonationItem>)
    ensures StatsFor(donations).co2ReducedKg == InitialStats.co2ReducedKg + 2.5 * TotalQuantity(donations)
    ensures var meals := (StatsFor(donations).totalMealsSaved - InitialStats.totalMealsSaved) as real;
            2.0 * TotalQuantity(donations) - |donations| as real <= meals <= 2.0 * TotalQuantity(donations)
    ensures StatsFor(donations).activeDonors == InitialStats.activeDonors
    ensures StatsFor(donations).communitiesServed == InitialStats.communitiesServed
  {
    if donations != [] {
      StatsForSession(donations[1..]);
    }
  }

  /** A newly submitted donation heads the logistics queue, ahead of the older ones. */
  lemma {:induction false} NewDonationHeadsQueue(d: DonationItem, older: seq<DonationItem>)
    requires d.status == Pending
    ensures MatchingView.ActiveDonations([d] + older) == [d] + MatchingView.ActiveDonations(older)
  {
    MatchingView.ActiveDonationsAppend([d], older);
    assert [d][1..] == [];
  }

  // ---------------------------------------------------------------------------
  // The session

  class Session {
    var viewState: ViewState
    var activeTab: string
    var donations: seq<DonationItem>
    var stats: ImpactStats

    /** The counters always follow from the donations of the session. */
    ghost predicate Valid()
      reads this
    {
      stats == StatsFor(donations)
    }

    function Page(): Page
      reads this
    {
      RenderPage(viewState, activeTab)
    }

    constructor()
      ensures Valid()
      ensures viewState == Landing && activeTab == "dashboard"
      ensures donations == [] && stats == InitialStats
    {
      viewState := Landing;
      activeTab := "dashboard";
      donations := [];
      stats := InitialStats;
    }

    /** "Get started" on the landing page. */
    method GetStarted()
      requires Valid()
      modifies this`viewState
      ensures Valid() && viewState == Login
    {
      viewState := Login;
    }

    /** "Back" in the wallet dialog. */
    method Back()
      requires Valid()
      modifies this`viewState
      ensures Valid() && viewState == Landing
    {
      viewState := Landing;
    }

    method LoginSuccess()
      requires Valid()
      modifies this`viewState
      ensures Valid() && viewState == InApp
    {
      viewState := InApp;
    }

    /** Logout leaves the app and resets the tab; donations and counters are kept. */
    method Logout()
      requires Valid()
      modifies this`viewState, this`activeTab
      ensures Valid() && viewState == Landing && activeTab == "dashboard"
      ensures donations == old(donations) && stats == old(stats)
    {
      viewState := Landing;
      activeTab := "dashboard";
    }

    /** A tab chosen in the navigation bar. */
    method SelectTab(tab: string)
      requires Valid()
      modifies this`activeTab
      ensures Valid() && activeTab == tab
    {
      activeTab := tab;
    }

    /** `handleAddDonation`. */
    method AddDonation(donation: DonationItem)
      requires Valid()
      modifies this`donations, this`activeTab, this`stats
      ensures Valid()
      ensures donations == [donation] + old(donations)
      ensures activeTab == "logistics"
      ensures stats == StatsAfterDonation(old(stats), donation.quantityKg)
    {
      donations := [donation] + donations;
      activeTab := "logistics";
      stats := StatsAfterDonation(stats, donation.quantityKg);
      assert donations[1..] == old(donations);
    }
  }

  /** A form submission wired to the session, as `onAddDonation` does: the new Pending
      donation heads the logistics queue, and the tab becomes logistics. The form's own
      handler resets it; the app then unmounts the form, which is not captured here, so
      the reset state is not what the next visit to the donate tab shows. */
  method SubmitDonation(session: Session, form: DonationForm.Form, idSuffix: string)
    returns (d: DonationItem)
    requires session.Valid()
    modifies session, form
    ensures session.Valid()
    ensures d == DonationForm.BuildDonation(idSuffix, old(form.name), old(form.quantity),
                                            old(form.category), old(form.expiry), old(form.aiResult))
    ensures session.donations == [d] + old(session.donations)
    ensures MatchingView.ActiveDonations(session.donations) ==
            [d] + MatchingView.ActiveDonations(old(session.donations))
    ensures session.viewState == old(session.viewState) && session.activeTab == "logistics"
    ensures session.viewState == InApp ==> session.Page() == AppPage(LogisticsScreen)
    ensures form.name == "" && form.quantity == 0.0 && form.expiry == "" && form.aiResult == None
    ensures form.category == old(form.category) && form.isAnalyzing == old(form.isAnalyzing)
  {
    d := form.HandleSubmit(idSuffix);
    session.AddDonation(d);
    NewDonationHeadsQueue(d, old(session.donations));
  }
}
